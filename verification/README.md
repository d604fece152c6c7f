# Capture2Cloud host: what its protocols keep

A Dafny model of the stateful core of the Capture2Cloud host, and proofs about it. The host serves one console's picture and sound to several players at once, merges their controllers, and keeps a Bluetooth controller link alive. `dafny verify dfyconfig.toml` checks everything.

## What is modelled

**The native transport** (`Bytes`, `Wire`, `ClientModel`, `Framing`, `Prediction`, `StreamModel`, `Broadcasting`, `Transport`, `Invariant`, `AudioRoutes`, `Reassembly`, `ReassemblyRuns`, `PredictionRuns`, `Carried`, `Keyframes`, `Backlog`, `Greeting`, `Routing`, `Readers`, `Comings`, and the concrete runs `Scenes`, `ProbeRun`, `PongRun`, `StaleRun`; objects in `SsClient`, `SwitchStream`). Eight clients share one lock, and each function that runs under it is one step. `StreamModel` says what each step does to the table as a value; the classes do it in place, with the same buffers, loops and branches, and each method is proved equal to its value-level step. A client's socket is a sequence of answers to its coming `send` calls, unconstrained. History fields record every byte the socket took (`wire`), every message accepted and ping answered (`sent`), every video frame with its fate (`log`), every byte and message received (`heard`, `received`), and whether each direct send so far found the queue empty and wrote all or nothing (`clean`). A run is any sequence of enabled events from the empty table.

**The Old 3DS audio encoder** (`Adpcm`): integer IMA-ADPCM with the standard decoder, written separately, as its specification; and the console's own decoding loop, with its own tables, played from the packets (`Listener`).

**Recovery and wake** (`Recovery`, `RecoveryProgress`): main loop, helper waiters, link worker and wake job as one transition system over their shared flags; and in true time, on a tick counter that wraps.

**Rates, demand, controllers, playback, settings** (`Pacing`, `Demand`, `WiiuRun`, `Shaping`, `Calibration`, `Merge`, `PlaybackRing`, `Config`, `LongLines`, `ReadBack`).

The value-level steps are the source's own decisions. What they mean is said beside them in other terms: bytes are read back by readers and from writers of their own, sizes and times are given in numbers, clients are followed by the door they came in by.

## What does not hold, and when it does

- Writes past the queue do not wait behind a partly sent frame. A probe of a quiet native client keeps the stream readable if and only if nothing but earlier probes is queued (`Framing.ProbeExact`, `Invariant.QuietProbeExact`); `ProbeRun.ProbeTearsAFrame` is a run where it does not, and `PongRun.PongTearsAFrame` one where a browser's ping does the same. The answer to a browser's ping keeps it readable if and only if pong and queue are repetitions of one word, as when the queue is empty (`Framing.PongExact`, `Invariant.BrowserPingExact`), and every other write past the queue likewise (`Framing.PastQueueExact`). A probe before the greeting puts bytes ahead of the handshake reply (`Framing.GreetAfterProbes`).
- A predictive client is left neither parked nor up to date by exactly three things (`PredictionRuns.StepChainsExact`): an up-to-date client is due a frame whose buffer must grow and cannot, or is meant to have a frame over the payload limit, or a client seated on a predictive codec is greeted while the stream is not on one, and says nothing in the same read that mends it. The next predicted frame then does harm (`Prediction.DeliverChainExact`, `PredictionRuns.MissedChainExact`, `PredictionRuns.HelloChainExact`, `Prediction.LostFrameHarms`).
- Parking goes by a client's own codec, and the stream carries the first greeted client's. A client that is greeted after the stream left the codec it connected under is not moved (`PredictionRuns.SwitchLeavesUngreetedBehind`); seated on single pictures it is handed predicted frames whatever its flag says (`Carried.UnparkedSeatExact`), and `StaleRun.StaleSeatIsHarmed` is a run where it is. While no such greeting, and nothing of the last point, happens, everybody on the stream is protected (`Carried.CarriedIsDecodable`).
- A codec switch of the Old 3DS stream parks its clients and asks for no keyframe; the first frame that passes one of them over does, unless one was asked for less than a second before (`Keyframes.SwitchAsksForNothing`, `Keyframes.PassedOverIsAskedFor`).
- A 3DS that asks for plain PCM and cannot have it by datagram gets no sound at all: the fallback over TCP is sent to the Wii U console's stream only (`AudioRoutes.PcmWithoutDatagramsIsUnheard`).
- Turning the Wii U setting on does not look at who is waiting (`Demand.WiiuSettingExact`); it is the only way a settled pipeline can be wrong about a chain (`Demand.WantedHasAudienceAlways`), and `WiiuRun.SettingLeavesItUnfed` is a run where it is.
- Recovery is never lost between whole steps, but a launching service pass spawns and then clears the request. Of what can happen in between, exactly the helper's exit loses recovery, and a run in between loses it exactly when it leaves no helper and recovery still asked for and marked (`Recovery.InsideServiceExact`, `Recovery.RunInsideServiceExact`, `Recovery.ExitInsideServiceLosesRecovery`). The comment in `server/output_pcble.c` lines 1745-1748 says ownership is marked early so that this cannot hurt.
- A setting new to a file whose last line lacks a newline is glued onto that line: it is lost unless the line is blank, and the key set there reads differently (`Config.GetAfterSet`, `Config.SetTouchesNoOtherKey`, `Config.SettingIsLost`). A duplicated key keeps its old last value. The rest of a line that is longer than the writer's buffer becomes a line of its own when its beginning is replaced (`LongLines.LongLineTailComesAlive`). The comment in `server/app_config.c` lines 210-219 promises that every other byte stays as it was.

## Model

| member | source | states |
|---|---|---|
| Wire.TakeOneWhole | shared/c2s_protocol.h:358-363 | A reader written from the frame layouts alone that refuses lengths not in their shortest form and reserved bytes that are not zero, takes exactly one written message or pong off the front of any stream, plain or in WebSocket frames, and leaves the rest |
| Wire.TakeOnePartial | server/ws_frame.c:59-76 | Any proper prefix of a written message or pong, cut anywhere including inside a header, reads as incomplete: never as something shorter, never as malformed |
| Wire.ReadAllOfPrefix | server/switch_stream.c:601-607 | A reader that has a prefix of what was written sees a prefix of the items written; with all the bytes it sees all of them |
| Bytes.BigEndianRoundTrip | server/ws_frame.c:65-75 | Extended lengths read back as the number written |
| Framing.WireReadsBack | server/switch_stream.c:456-468 | From what the socket has taken, the peer reads a prefix of the accepted messages, in order; all of them once nothing is queued |
| Framing.FlushConserves | server/switch_stream.c:458-468 | Flushing, with any short writes and refusals, only moves bytes from the front of the queue to the end of the wire |
| Framing.SendAllPrefix | server/switch_stream.c:444-454 | A direct send puts a prefix of its bytes on the wire, and reports success exactly when it was all of them |
| Framing.DeliverFramed | server/switch_stream.c:520-717 | One pass of the broadcast over one client keeps its output well framed, whatever the socket takes or refuses |
| Framing.AllOrNothing | server/switch_stream.c:601-717 | A message is accepted with its whole encoding behind what the client was owed, or leaves no byte behind |
| Framing.AudioNeverSkipped | server/switch_stream.c:595-660 | An audio packet for an eligible client is queued whole behind unsent bytes or the client is dropped, always dropped past the bound; it is lost if and only if the buffer must grow and cannot, and then no byte is left behind |
| Broadcasting.DeliverToEach | server/switch_stream.c:520-717 | The broadcast loop treats every client as if it were the only one, also when it drops others on the way |
| Broadcasting.AudioReachesAll | server/switch_stream.c:488-717 | After a whole audio send every client it was meant for has the packet behind what it was owed, or is gone, or meets the one exact exception; nobody else changes |
| Framing.DeliverBounded | server/switch_stream.c:629-660 | The queue never outgrows the larger of 262144 bytes and one maximal wrapped message |
| Framing.CommuteExact | server/switch_stream.c:1460-1477 | Two byte strings commute if and only if they are repetitions of one word |
| Framing.PastQueueExact | server/switch_stream.c:1456-1477 | A write past the queue keeps the framing if and only if it completed and its bytes and the queue are repetitions of one word, as when the queue is empty, or it wrote nothing |
| Framing.DirectSendExact | server/switch_stream.c:1460-1477 | The same for every message sent directly |
| Framing.AnswerPingPrefix | server/switch_stream.c:1522-1527 | The two writes that answer a ping put a prefix of one pong frame on the wire, and all of it exactly when both complete |
| Framing.PongExact | server/switch_stream.c:1518-1527 | The same condition for the answer to a browser's ping |
| Framing.PongTearsMessages | server/switch_stream.c:1518-1527 | A completed pong always tears a queue that does not itself begin like a pong |
| Framing.ProbeExact | server/switch_stream.c:1910-1919 | A completed keep-alive probe keeps a native stream readable if and only if the queue is empty or is itself whole keep-alives |
| Framing.CommutingIsPings | server/switch_stream.c:1918 | The only byte strings that commute with a keep-alive are repetitions of it |
| ProbeRun.ProbeTearsAFrame | server/switch_stream.c:1913-1919 | A run from the empty table, connecting, greeting, a short write and three quiet seconds, after which the peer reads a picture that was never sent |
| PongRun.PongTearsAFrame | server/switch_stream.c:1518-1527 | A run from the empty table, a browser that takes all but the last byte of a frame and pings, after which it reads a picture that was never sent |
| Framing.GreetAfterProbes | server/switch_stream.c:1394-1397 | The handshake reply is first on the wire if and only if no probe went out before it |
| Framing.SendNowFramed | server/switch_stream.c:1460-1477 | Every direct send that found the queue empty and wrote all or nothing keeps the output well framed |
| Framing.AnswerPingFramed | server/switch_stream.c:1518-1527 | And so does every answer to a ping |
| Framing.GreetFramed | server/switch_stream.c:1394-1398 | The bare handshake reply followed by framed messages is well framed |
| Prediction.Decodable | server/switch_stream.c:560-566 | In a sound history every frame handed over goes back without a gap to a keyframe handed over |
| Prediction.VideoLostExact | server/switch_stream.c:647-656 | A frame is lost for want of memory if and only if the client is due it, has nothing queued, and its bytes need a larger buffer than there is and can be |
| Prediction.DeliverChainExact | server/switch_stream.c:555-599 | One frame offered keeps a predictive client's chain sound unless, exactly, the client was up to date and is starved of it like that |
| Prediction.LostFrameHarms | server/switch_stream.c:647-656 | After a frame missed unparked the very next predicted frame is handed over undecodable |
| Prediction.NoSelfInflictedSkip | server/switch_stream.c:505-590 | A socket holding just the previous frame is within the next frame's allowance if and only if that frame as written fits the client's cap, for every size history |
| Backlog.RunSizes | server/switch_stream.c:505-516 | After any run, a stream's recent maximum is the decaying maximum of the sizes of the frames broadcast on it, and of nothing else |
| Backlog.RecentLately | server/switch_stream.c:502-519 | Whatever a stream carried before, after six hundred frames of at most z bytes its recent maximum is at most z (or 15, if that is more) |
| Backlog.BehindIsWithheld | server/switch_stream.c:568-595 | After any run whose last six hundred frames on the stream, and this one, were at most z bytes (z of 15 or more), a client with more unsent than the larger of 65536 and the smaller of 2z + 32768 and 524288 (on an Old 3DS: 49152, 2z + 8192 and 131072 if its pictures are predicted, 24576, z + 8192 and 65536 if not) is handed no video |
| Backlog.SteadyIsExact | server/switch_stream.c:568-617 | On a stream of frames of z bytes that number is exact: a client with nothing queued that is not parked is withheld the frame if and only if it has more unsent |
| Backlog.ParkedInNumbers | server/switch_stream.c:555-566 | A parked client is passed over unless the frame's first flag is set, and the first such frame unparks it |
| Backlog.SoundInNumbers | server/switch_stream.c:629-646 | A client that cannot be written to is dropped when its queue and the packet come to more than 262144 bytes, and otherwise has the packet queued |
| Backlog.TooLargeInNumbers | server/switch_stream.c:492-494 | A payload of more than 4194304 bytes is written to nobody; any other is offered to everybody |
| StreamModel.FirstFree | server/switch_stream.c:1858-1861 | The slot a newcomer gets is the first free one, or the table's length when none is |
| StreamModel.SwitchTo | server/switch_stream.c:1640-1649 | Every greeted Old 3DS client moves to the new codec and is told; nobody else changes |
| StreamModel.ToldSame | server/switch_stream.c:1479-1494 | What a client is told depends on the announcements alone, not on other clients |
| Invariant.DeliverToInv | server/switch_stream.c:520-717 | The broadcast loop keeps the table invariant at every point, even as it drops clients |
| Invariant.BroadcastInv | server/switch_stream.c:488-743 | A whole send, oversized or not, keeps the table invariant |
| Invariant.AdoptInv | server/switch_stream.c:788-855 | Adopting a browser keeps the invariant: no fifth browser, an entry only if answered |
| Invariant.EvictInv | server/switch_stream.c:1838-1856 | After the eviction loop no entry is from the arriving console's address |
| Invariant.AcceptInv | server/switch_stream.c:1838-1894 | Accepting on any of the four ports keeps the invariant |
| Invariant.HelloInv | server/switch_stream.c:1256-1427 | Handling a greeting, refused, unanswerable or accepted, keeps the invariant |
| Invariant.DispatchInv | server/switch_stream.c:1577-1716 | Acting on a message keeps the invariant once the recount it owes is done, and owes one only if a codec moved |
| Invariant.MessagesInv | server/switch_stream.c:1551-1727 | The whole message loop keeps the invariant, on any buffer |
| Invariant.ReceiveInv | server/switch_stream.c:1923-1945 | A read from a native client, through greeting and messages, keeps the invariant |
| Invariant.QuietInv | server/switch_stream.c:1909-1921 | The pass over a quiet client keeps the invariant |
| Invariant.PongedInv | server/switch_stream.c:1518-1527 | Answering a browser's ping keeps the invariant |
| Invariant.BrowserPingExact | server/switch_stream.c:1518-1527 | For a browser whose ping was answered whole: its output is well framed afterwards if and only if pong and queue are repetitions of one word |
| Invariant.QuietProbeExact | server/switch_stream.c:1909-1921 | For a quiet native client about to be probed: its output is well framed afterwards if and only if nothing but earlier probes is queued |
| Invariant.StepInv | server/switch_stream.c:1899-1947 | Every step of every thread keeps the invariant |
| Invariant.TableSoundAlways | server/switch_stream.c:1432-1449 | After any run: each audience count is the number of greeted clients routed to that stream, at most four clients are browsers, no console holds two connections |
| Routing.StepLedger | server/switch_stream.c:1899-1947 | Every step keeps the table in line with a ledger of who came in by which door and what each main-port client last asked for with success |
| Routing.CountedByArrival | server/switch_stream.c:322-341 | After any run each audience count is the number of greeted clients that belong there by their door: browsers to the third stream, GamePad port to the fourth, Wii U port to the fifth, Old 3DS port to the sixth, whatever codecs they ask for; main port to VP8, H.264 or the GamePad's encode as last granted, H.264 if nothing was |
| Routing.FedByArrival | server/switch_stream.c:520-535 | After any run a video frame of a stream goes to exactly those clients, and nobody else notices it |
| Routing.PlaysByArrival | server/switch_stream.c:1307-1309 | After any run: a pad's input is taken, a browser's as it was let in, anyone else's as its greeting was answered |
| Routing.Old3dsRequest | server/switch_stream.c:1620-1659 | An Old 3DS that asks for another of the four codecs takes every greeted Old 3DS with it, parked if the pictures are predicted; any other codec request of one changes nothing |
| Comings.FlushGetsThatFar | server/switch_stream.c:458-468 | A queue gets exactly as many bytes out as the socket takes before it first takes none, and the peer is given up if and only if that answer was an error and something was left |
| Comings.SendGetsThatFar | server/switch_stream.c:444-454 | A direct send gets that far too, and succeeds if and only if that is all of it |
| Comings.AdoptExact | server/switch_stream.c:788-855 | A browser is taken in if and only if an entry is free, fewer than four browsers are there and thirty bytes of answer go out; nobody else notices |
| Comings.EvictExact | server/switch_stream.c:1838-1856 | Exactly the entries of the arriving console's address are cleared |
| Comings.AcceptExact | server/switch_stream.c:1838-1894 | The newcomer is in the first entry that is free or was so cleared, with the codec of its port; every other entry is as it was |
| Comings.QuietInNumbers | server/switch_stream.c:1909-1921 | On a clock that wraps: given up after more than ten seconds of silence, asked after more than three if not asked within three, else left alone |
| Invariant.WireSoundAlways | server/switch_stream.c:458-717 | After any run, pings answered included: the queue bound holds, and a client whose direct sends were clean has a wire that reads back as a prefix of what was written for it, all of it once its queue is empty |
| Greeting.GreetingReadsBack | server/switch_stream.c:1263-1295 | A greeting written from its layout, with any token, is understood: its capabilities, and that it is as long as header and token together; refused on the Old 3DS port without that port's bit |
| Greeting.GreetingPartial | server/switch_stream.c:1258-1266 | No proper prefix of one is acted on |
| Greeting.StrangerRefused | server/switch_stream.c:1280-1284 | Another magic number or version is refused |
| Greeting.OnePieceReadsBack | server/switch_stream.c:1563-1576 | A message of up to 504 bytes, written from the header layout, reads back with its kind, flags and payload, and nothing after it is touched |
| Greeting.TooBigIsRefused | server/switch_stream.c:1568-1571 | A longer message ends the connection as soon as its header is there |
| Greeting.ConversationReadsBack | server/switch_stream.c:1551-1727 | A greeting with any token and any such messages behind it read back as those messages, nothing left over |
| Greeting.SaidIsActedOn | server/switch_stream.c:1923-1945 | After any run, a native client that has sent just that, however the network cut it, is greeted and the messages acted on are those it wrote |
| Readers.AnswerReadsBack | shared/c2s_protocol.h:183-196 | The twenty-byte answer, read field by field at its offsets |
| Readers.PictureReadsBack | shared/c2s_protocol.h:380-385 | The same for the shape of a stream |
| Readers.SharedReadsBack | shared/c2s_protocol.h:395-403 | And for the shared settings |
| Readers.SwitchedSettings | server/switch_stream.c:1636-1639 | A codec switch puts the new codec into the kept Old 3DS settings and changes no other field and no other stream's |
| Readers.IntroducedByBits | server/switch_stream.c:1344-1375 | Every combination of the four audio bits: who may have PCM, PCM, Opus or ADPCM by datagram, and which goes first; and the codec and control a client is seated with |
| Readers.AnswerFor | server/switch_stream.c:1377-1394 | The answer a client reads names its control, its stream's shape, its codec, its sound and rate, and the datagrams that will come |
| Readers.NewcomerIsTold | server/switch_stream.c:1322-1419 | A greeted native client whose socket takes it is answered with, and then told, the shape and settings of the stream of its own port, and is parked if and only if it is on predicted pictures |
| Readers.RetunedIsTold | server/switch_stream.c:1665-1679 | A client that is given the codec it asks for is told the shape and settings of the stream that puts it on; a browser or pad, of the one it stays on |
| Readers.SwitchedAreTold | server/switch_stream.c:1636-1649 | When one Old 3DS moves the stream every greeted one of them is told the new codec |
| Readers.BrowserIsTold | server/switch_stream.c:824-848 | So is a browser, about the web stream, the answer as its first message |
| PredictionRuns.HelloChainExact | server/switch_stream.c:1400-1401 | A greeting keeps every chain sound unless, exactly, it is accepted and answered for a client seated on a predictive codec while the stream is not on one, so that it is not parked; and keeps all seats in agreement unless, exactly, the stream has left the codec the client connected under |
| PredictionRuns.MissedChainExact | server/switch_stream.c:492-494 | A frame over the payload limit breaks the chain of exactly the up-to-date clients it was meant for: nobody is parked |
| PredictionRuns.BroadcastChainsExact | server/switch_stream.c:488-717 | A whole broadcast keeps every chain sound if and only if no up-to-date client is starved of it or meant to have had an oversized frame |
| PredictionRuns.StaleMessagesExact | server/switch_stream.c:1632-1659 | What such a client says in the same read makes its chain sound, or the seats agree, if and only if it ends the connection or switches the codec |
| PredictionRuns.SwitchLeavesUngreetedBehind | server/switch_stream.c:1640-1649 | After a codec switch an Old 3DS client agrees with the stream if and only if it had been greeted |
| PredictionRuns.StepChainsExact | server/switch_stream.c:1899-1947 | Any step at all keeps every chain sound -- every client parked or up to date -- if and only if it is none of those; and, with agreement asked for too, if and only if it seats nobody on a codec the stream has left |
| PredictionRuns.RunChainsExact | server/switch_stream.c:488-717 | The runs that keep every chain sound throughout, or in agreement too, are exactly the runs of such steps |
| PredictionRuns.PredictionSoundAlways | server/switch_stream.c:555-599 | Over those runs, seats in agreement or not, every frame handed to a predictive Old 3DS client goes back through consecutively broadcast, handed-over frames to a handed-over keyframe |
| Carried.CarriedIsAgreed | server/switch_stream.c:875-888 | While all seats agree, the codec the pipeline encodes, the first greeted client's, is that of every greeted client of the stream |
| Carried.CarriedIsDecodable | server/gst_webrtc.c:2255-2259 | Over runs that keep all seats in agreement: whenever the stream carries a predictive codec, every greeted client on it has been handed decodable frames only |
| Carried.UnparkedSeatExact | server/switch_stream.c:555-566 | A client seated on single pictures, on a stream that carries predicted frames, is handed one it cannot decode if and only if it takes it and did not take the one before, parked or not |
| StaleRun.StaleSeatIsHarmed | server/switch_stream.c:1632-1649 | A run from the empty table after which a greeted client, marked as waiting for a keyframe, is handed a predicted frame as its first |
| AudioRoutes.OneRoute | server/switch_stream.c:895-924 | The five audiences of sound, each selected by its own send, are disjoint; each client's is that of the codec its handshake promised |
| AudioRoutes.AudioArrivesOnceAlways | server/switch_stream.c:1055-1129 | After any run a client is in at most one audience, that of the promised codec, and in exactly one if and only if it is not one of the unheard |
| AudioRoutes.PcmWithoutDatagramsIsUnheard | server/switch_stream.c:1346-1368 | A 3DS that asks for PCM is left without sound if and only if it cannot have datagrams |
| Broadcasting.SkippedIsHeldBack | server/switch_stream.c:560-617 | A client is passed over if and only if it is there and is parked, or its socket or its queue is behind |
| Keyframes.ActExact | server/switch_stream.c:736-741 | One step makes at most one request for a keyframe, now; a transport step only when the last is at least a second old; the end of a pass exactly if one is pending, which nothing else settles |
| Keyframes.SendAsksExact | server/switch_stream.c:736-741 | A video broadcast asks if and only if it passed somebody over whom a keyframe helps and no request is less than a second old; and then one is |
| Keyframes.PassedOverIsAskedFor | server/switch_stream.c:725-741 | In any reachable state, a predictive Old 3DS client is passed over only in a broadcast that asks for a keyframe, or less than a second after one was asked for |
| Keyframes.ParkedIsPassedOver | server/switch_stream.c:588-599 | A client that a broadcast parks has been passed over by it |
| Keyframes.GreetedIsPending | server/switch_stream.c:1406-1409 | Every newcomer greeted on a stream where it matters leaves a request pending |
| Keyframes.BrowserIsPending | server/switch_stream.c:848 | So does every browser taken in |
| Keyframes.WishIsPending | server/switch_stream.c:1660-1690 | A message of a greeted native client leaves a request if and only if it moves the codec of a client that is not an Old 3DS, or is a wish and the last request was made 1000 ms ago or longer |
| Keyframes.PendingIsAskedFor | server/switch_stream.c:1957-1963 | What is pending is never forgotten over any run: it still is, or a keyframe was asked for since; the end of the next pass asks |
| Keyframes.SwitchAsksForNothing | server/switch_stream.c:1632-1658 | A codec switch of the Old 3DS stream, which parks every client on it, asks for nothing |
| Keyframes.KeyframeDesk.NoteSend | server/switch_stream.c:736-741 | The test after a broadcast, field by field |
| Keyframes.KeyframeDesk.NotePass | server/switch_stream.c:1957-1963 | The test at the end of a pass |
| Keyframes.KeyframeDesk.NoteWish | server/switch_stream.c:1682-1690 | A client's own request, dropped if the last is too recent |
| SsClientObject.SsClient.FlushPending | server/switch_stream.c:458-468 | The send loop over `pending[pending_sent..pending_len]` is the value-level flush |
| SsClientObject.SsClient.SendAllNow | server/switch_stream.c:444-454 | The direct-send loop is the value-level direct send |
| SsClientObject.SsClient.SendMsgNow | server/switch_stream.c:1460-1477 | A message wrapped and sent now, or refused over 256 bytes |
| SsClientObject.SsClient.SendGroup | server/switch_stream.c:1479-1494 | The stream's shape and settings, if known, sent past the queue, failures unnoticed |
| SsClientObject.SsClient.SendPong | server/switch_stream.c:1522-1527 | The two writes of a pong, the second only after the first |
| SsClientObject.SsClient.HearPing | server/switch_stream.c:1518-1527 | A ping refreshes the clock and is answered, whether or not the answer gets out |
| SsClientObject.SsClient.Compact | server/switch_stream.c:612-624 | Moving unsent bytes to the front of the buffer changes nothing that is owed |
| SsClientObject.SsClient.Append | server/switch_stream.c:629-707 | Growing the buffer and laying the message behind the unsent bytes; fails exactly when it must grow and cannot |
| SsClientObject.SsClient.EnqueueMessage | server/switch_stream.c:601-717 | Bounds, buffers and writes one message exactly as the value-level step does |
| SsClientObject.SsClient.DeliverMessage | server/switch_stream.c:520-717 | One client's share of a broadcast is the value-level policy: eligibility, parked clients, backlog, queue, bounds |
| SsClientObject.SsClient.MoveDown | server/switch_stream.c:1248-1251 | Bytes after the first n moved to the front of the fixed buffer, in place |
| SsClientObject.SsClient.Consume | server/switch_stream.c:1248-1251 | Taking n bytes off the front of the receive buffer, moved in place |
| SsClientObject.SsClient.TakeMessage | server/switch_stream.c:1717-1721 | Taking one message off the front, for either kind of buffer |
| SsClientObject.SsClient.Welcome | server/switch_stream.c:1394-1401 | Answering an accepted greeting and seating the client |
| SsClientObject.SsClient.Hear | server/switch_stream.c:1923-1931 | What recv returned lands behind the bytes held |
| SwitchStreamObject.SwitchStream.constructor | server/switch_stream.c:65 | Eight free entries that share nothing, nobody counted |
| SwitchStreamObject.SwitchStream.RecountAudience | server/switch_stream.c:1432-1449 | The counting loop computes the audience of each stream and marks a change |
| SwitchStreamObject.SwitchStream.DropClient | server/switch_stream.c:470-486 | Dropping clears one entry and recounts; dropping a free entry does nothing |
| SwitchStreamObject.SwitchStream.DeliverToClient | server/switch_stream.c:520-717 | One turn of the broadcast loop on the real table |
| SwitchStreamObject.SwitchStream.SizeAllowance | server/switch_stream.c:505-516 | The decaying per-stream maximum |
| SwitchStreamObject.SwitchStream.BroadcastFiltered | server/switch_stream.c:488-717 | The whole broadcast over the real table is the fold of the per-client step, in slot order, and reports exactly whether anybody was passed over |
| SwitchStreamObject.SwitchStream.AnnounceStreamShape | server/switch_stream.c:375-387 | Recording and broadcasting a stream's shape |
| SwitchStreamObject.SwitchStream.AnnounceSharedSettings | server/switch_stream.c:401-417 | Recording and broadcasting a stream's settings |
| SwitchStreamObject.SwitchStream.CodecOfStream | server/switch_stream.c:875-888 | The loop finds the codec of the first greeted client on a stream |
| SwitchStreamObject.SwitchStream.SendGroupState | server/switch_stream.c:1479-1494 | Telling one client about its own stream |
| SwitchStreamObject.SwitchStream.Survey | server/switch_stream.c:792-796 | One pass over the table finds the first free entry and the number of browsers |
| SwitchStreamObject.SwitchStream.AdoptWebsocket | server/switch_stream.c:788-855 | Refuses when full or at four browsers; else seats, answers, tells and counts, or takes the entry back |
| SwitchStreamObject.SwitchStream.EvictConsole | server/switch_stream.c:1838-1856 | Older connections of a console are dropped before the new one is seated |
| SwitchStreamObject.SwitchStream.AcceptClient | server/switch_stream.c:1838-1894 | The newcomer takes the first free entry with the codec of its port |
| SwitchStreamObject.SwitchStream.Idle | server/switch_stream.c:1909-1921 | Drop after ten seconds, probe after three, on a 32-bit clock |
| SwitchStreamObject.SwitchStream.SwitchOld3ds | server/switch_stream.c:1636-1649 | The stream and all greeted Old 3DS clients move to a codec together |
| SwitchStreamObject.SwitchStream.DispatchMessage | server/switch_stream.c:1577-1716 | Codec requests: who may ask for what, and what changes |
| SwitchStreamObject.SwitchStream.FrontPiece | server/switch_stream.c:1563-1575 | The message at the front of a buffer: none yet, too big, or whole |
| SwitchStreamObject.SwitchStream.HandleMessagesOf | server/switch_stream.c:1551-1727 | The parsing loop acts on every complete message in order, recounting after each codec change |
| SwitchStreamObject.SwitchStream.AcceptHello | server/switch_stream.c:1294-1419 | An accepted greeting: negotiated, answered, told, counted; dropped if unanswerable |
| SwitchStreamObject.SwitchStream.HandleHelloOf | server/switch_stream.c:1256-1427 | Incomplete greetings wait; wrong magic, version or missing capability drop the client |
| SwitchStreamObject.SwitchStream.ReceiveFrom | server/switch_stream.c:1923-1945 | A read from a native client: stored, greeted, then parsed |
| SwitchStreamObject.SwitchStream.HearPingFrom | server/switch_stream.c:1518-1527 | A browser's ping answered past its queue |
| SwitchStreamObject.SwitchStream.ReceiveUnwrapped | server/switch_stream.c:1933-1945 | A browser's unwrapped bytes: stored, then parsed |
| Reassembly.ReadSplit | server/switch_stream.c:1551-1576 | Reading part of a native stream and then the rest is reading it all at once, across the greeting too |
| Reassembly.CutsDoNotMatter | server/switch_stream.c:1923-1945 | Any two ways of cutting one byte stream give the same messages, link state and leftover |
| Reassembly.LeftoverFits | server/switch_stream.c:1563-1574 | What is left after a pass is shorter than 512 bytes, so the next read has room |
| Reassembly.MessagesRead | server/switch_stream.c:1551-1727 | The loop that also moves codecs and drops clients acts on exactly the messages a pure parse of its buffer finds |
| Reassembly.DispatchKeepsLine | server/switch_stream.c:1577-1716 | Acting on a message disturbs no client's receive buffer, not even by a codec switch of every peer |
| ReassemblyRuns.ReceiveReads | server/switch_stream.c:1923-1945 | One read: the client is then exactly where a parse of leftover and new bytes puts it, or dropped, and no other client's input moved |
| ReassemblyRuns.StepHeard | server/switch_stream.c:1899-1947 | Every step keeps each native client at the parse of all it ever sent |
| ReassemblyRuns.ReassemblySoundAlways | server/switch_stream.c:1923-1945 | After any run, the messages acted on for a connected native client are the parse of everything it ever sent |
| Adpcm.EncodeNibble | server/switch_stream.c:951-993 | The encoder's updated predictor and index are the standard decoder's, for every sample and state |
| Adpcm.Quantize | server/switch_stream.c:971-983 | The three compare-and-subtract steps give the greedy code and the delta a decoder will apply |
| Adpcm.MagnitudeFits | server/switch_stream.c:971-983 | Below two steps the uncovered rest is about an eighth of a step; beyond, all bits are set and the target is undershot |
| Adpcm.ErrorBound | server/switch_stream.c:951-993 | Within two steps the new error is at most step/8 + 2; otherwise it strictly shrinks and the index rises by eight, to 88 at most |
| Adpcm.OverloadClimbs | server/switch_stream.c:984-989 | While a constant input is out of reach the error shrinks and the index climbs eight a sample |
| Adpcm.OverloadEnds | server/switch_stream.c:984-989 | On constant input at most eleven samples in a row are out of reach |
| Adpcm.EncodeAllSnoc | server/switch_stream.c:1031-1036 | Coding one more sample appends the code chosen from where the decoder stands |
| Adpcm.ChannelError | server/switch_stream.c:1031-1039 | Every sample of a coded channel is heard within an eighth of the step in force and two, unless overloaded |
| Adpcm.PacketFidelity | server/switch_stream.c:1013-1039 | From one packet alone: the first sample of each channel exactly, every later one within the bound |
| Adpcm.MeanIsSample | server/switch_stream.c:1096-1099 | The truncated mean of two samples is a sample, within one half of the real mean |
| Listener.SameTables | 3ds/source/audio.c:38-48 | The console's step and index tables are the host's |
| Listener.DecodeNibble | 3ds/source/audio.c:36-60 | The console's predictor and index move as the host's model of its listener does, for every code and state |
| Listener.DecodePacket | 3ds/source/audio.c:62-107 | The console's loop plays every frame of an acceptable packet as that listener hears it, twice on each channel, and refuses any other |
| Listener.PlayedFaithfully | 3ds/source/audio.c:82-105 | What the console plays of a packet is the host's block: its first frame exactly, every other within the bound unless overloaded |
| Adpcm.AdpcmSender.EncodeFrames | server/switch_stream.c:1028-1039 | The interleaved loop over a block produces exactly the codes of the two channels and the decoder's final indices |
| Adpcm.AdpcmSender.SendBlock | server/switch_stream.c:995-1050 | A packet encodes the gathered block; the indices kept are where its decoder finishes |
| Adpcm.AdpcmSender.FinishBlock | server/switch_stream.c:1100-1103 | A full block is encoded, sent if anyone listens, and emptied; the packet history stays chained |
| Adpcm.AdpcmSender.Store | server/switch_stream.c:1095-1099 | An averaged frame lands behind those gathered, in the buffer and in the history |
| Adpcm.AdpcmSender.Gather | server/switch_stream.c:1095-1103 | Each averaged frame is kept in order; a packet goes out exactly when a block fills and someone listens |
| Adpcm.AdpcmSender.SendPcm | server/switch_stream.c:1078-1104 | The 48 kHz input is halved by averaging neighbours, an odd last frame left out, and every packet encodes one block of it |
| Recovery.StepInv | server/output_pcble.c:1678-1814 | Every interleaving of whole steps keeps the recovery invariant |
| Recovery.NeverLostAlways | server/output_pcble.c:1257-1333 | In every reachable state active recovery is pending or has a helper, never two helpers, and suspension means a wake job is running |
| Recovery.LaunchesCounted | server/output_pcble.c:1736-1766 | Between renewals the launches since the last request are all the launches |
| Recovery.BoundedRecovery | server/output_pcble.c:1711-1773 | From a request to the next request, link-up or wake, at most three reconnect helpers are launched |
| Recovery.RestsUntilAsked | server/output_pcble.c:1680-1685 | At rest, nothing is launched until somebody asks for recovery |
| Recovery.GivingUpRests | server/output_pcble.c:1714-1734 | Giving up, by attempts or by a failed last spawn, puts the backend at rest |
| Recovery.RetryCycleEnds | server/output_pcble.c:1678-1814 | Every service pass and helper exit changes nothing or strictly decreases a measure: the retry cycle ends |
| Recovery.HandOverKept | server/output_pcble.c:1817-1859 | While suspended no step but a request, a pairing or the end of the wake launches or re-arms anything |
| Recovery.BeaconGoesOutAlone | server/reset_method.c:1441-1500 | With no request or pairing since the wake began, the beacon goes out with no helper alive and none launched |
| Recovery.WakeEndsInReset | server/reset_method.c:1441-1531 | An accepted wake ends only by requesting recovery with nothing suspended |
| Recovery.HalvesAreService | server/output_pcble.c:1736-1773 | The two halves of a launching service pass are the pass |
| Recovery.InsideServiceExact | server/output_pcble.c:1749-1773 | Of the steps another actor can take between those halves, exactly the helper's exit loses recovery |
| Recovery.RunInsideServiceExact | server/output_pcble.c:1749-1773 | For any run in between: recovery is lost if and only if no helper is left, it is still asked for, and no pairing has taken its mark |
| Recovery.LostWithoutPairing | server/output_pcble.c:1749-1773 | With no pairing in between: if and only if the helper exits and recovery is not called off for good |
| Recovery.ExitInsideServiceLosesRecovery | server/output_pcble.c:1749-1773 | Then recovery stays active with nothing pending, no helper, and nothing any service pass would do |
| RecoveryProgress.DueExact | server/output_pcble.c:1706-1708 | A deadline is reached exactly when its milliseconds have gone by, on a counter that wraps, up to half its range |
| RecoveryProgress.RequestIsServed | server/output_pcble.c:1703-1773 | With no helper in the way, a pass d ms after a request launches, or counts a failed attempt, for every d below 2^31 |
| RecoveryProgress.ExitIsServed | server/output_pcble.c:1257-1333 | After the exit of a helper that recovery owned, a pass does nothing for 1000 ms, and from then on launches, counts a failed attempt or gives up |
| RecoveryProgress.FailureIsServed | server/output_pcble.c:1753-1773 | The same after a helper that could not be spawned |
| RecoveryProgress.OldHelperIsStopped | server/output_pcble.c:1687-1704 | A helper in the way is stopped once, and the first launch comes 1000 ms after that or later |
| RecoveryProgress.LinkUpRests | server/output_pcble.c:543-563 | The link coming up leaves nothing asked for, owned or active |
| RecoveryProgress.WakeStopsHelper | server/output_pcble.c:1817-1859 | A wake calls recovery off, suspends it and tells a helper to stop |
| RecoveryProgress.ReleaseWait | server/reset_method.c:1458-1481 | The wake job waits for the helper for 10000 ms, to the millisecond, and then asks for recovery with nothing suspended |
| RecoveryProgress.ReleasedGoesOn | server/reset_method.c:1461-1485 | Once the helper is gone the beacon is next, whatever the clock says |
| RecoveryProgress.WaitingIsActedOn | server/output_pcble.c:1678-1773 | In any run in true time that neither calls recovery off nor pairs, one pass at or after the deadline is enough for recovery that waits to be acted on |
| RecoveryProgress.BlockedIsActedOn | server/output_pcble.c:1678-1773 | And for recovery with a helper in the way, one pass 1000 ms after that helper has gone |
| RecoveryProgress.RequestIsActedOn | server/output_pcble.c:740-780 | So from any reachable state a request is acted on by the first such pass |
| Recovery.Backend.RequestRecovery | server/output_pcble.c:740-780 | A recovery request, field by field |
| Recovery.Backend.NoteLinkUp | server/output_pcble.c:543-563 | Link-up ends recovery |
| Recovery.Backend.Stop | server/output_pcble.c:1862-1916 | Stopping marks the session as stopping |
| Recovery.Backend.Start | server/output_pcble.c:1341-1525 | One helper at a time; a failed spawn changes nothing |
| Recovery.Backend.RunService | server/output_pcble.c:1678-1814 | Stop what is in the way, wait, give up, or launch |
| Recovery.Backend.HelperGone | server/output_pcble.c:1231-1338 | A helper's exit re-arms recovery it owned, unless suspended |
| Recovery.Backend.SuspendForWake | server/output_pcble.c:1817-1859 | Recovery is cleared before the helper is stopped |
| Recovery.Backend.AskWake | server/reset_method.c:1533-1619 | One wake job at a time |
| Recovery.Backend.RunWake | server/reset_method.c:1441-1531 | The wake job's phases |
| Pacing.TickBalance | server/gst_webrtc.c:2077-2131 | One call never creates credit, and conserves it if and only if the bucket did not overflow; credit stays within one period |
| Pacing.NeverTooFast | server/gst_webrtc.c:2077-2131 | Over any run frames passed plus credit are paid for by elapsed time, across stalls |
| Pacing.AtMostOnePerPeriod | server/gst_webrtc.c:2225-2242 | Between two calls, at most one frame more than the periods between them |
| Pacing.CreditConserved | server/gst_webrtc.c:2092-2120 | With call gaps within one period the account balances exactly |
| Pacing.NeverTooSlow | server/gst_webrtc.c:2077-2131 | With such gaps, at least the periods between two calls, minus one, pass |
| Pacing.FirstCall | server/gst_webrtc.c:2084-2089 | From a cold start the first frame passes and the account opens empty |
| Pacing.BurstOfTwo | server/gst_webrtc.c:2092-2120 | After a gap of two periods or more, short of a stall, two frames pass at once and not three |
| Pacing.OneAfterAStall | server/gst_webrtc.c:2084-2089 | After more than half a second only one does |
| Pacing.ZeroClockPassesAll | server/gst_webrtc.c:2225-2232 | A clock stuck at zero lets every frame pass |
| Pacing.Pacer.Admit | server/gst_webrtc.c:2225-2242 | The pacing test, field by field |
| Demand.CountsNeverMoveUnmarked | server/switch_stream.c:1432-1449 | No transport step but the taking itself moves a count without leaving the demand mark, or removes the mark |
| Demand.CountedIsThere | server/switch_stream.c:857-860 | A stream's count is positive if and only if a greeted client is routed to it |
| Demand.MovedOk | server/gst_webrtc.c:1455-1497 | Every step of transport and pipeline together, the callback one chain at a time, keeps the flags sound |
| Demand.WantedHasAudienceAlways | server/gst_webrtc.c:1455-1497 | After any joint run with a clean mark and no callback under way, a chain is wanted only while a greeted client is on its stream and its setting on; and whenever that is so, except exactly a watched Wii U console chain whose setting was turned on and not looked at since |
| Demand.GatedInNumbers | server/gst_webrtc.c:1461-1479 | At any time the GamePad's and the Wii U console's chains are unfed while their settings are off; once settled each of the other four is fed if and only if somebody is counted on it, and those two if also allowed, and looked at since |
| Demand.WiiuSettingExact | server/gst_webrtc.c:1525-1533 | Touching its setting leaves the Wii U console's chain right if and only if it is off now, was on already, or nobody is there |
| WiiuRun.SettingLeavesItUnfed | server/gst_webrtc.c:1525-1533 | A run of transport and pipeline together after which everything has settled, a console is watching with its setting on, and its chain is not fed |
| Demand.ServingPutsRight | server/switch_stream.c:1952-1955 | A callback served to the end without a count moving puts every chain right, the Wii U console's too |
| Demand.CallbackIsLooks | server/gst_webrtc.c:1460-1496 | The loop over the chains is one look after another, each with the count at its turn |
| Demand.DemandGate.LookAt | server/gst_webrtc.c:1461-1479 | One chain: wanted with its audience and setting, and announced exactly when it starts |
| Demand.DemandGate.OnDemandChanged | server/gst_webrtc.c:1455-1497 | The loop over the chains |
| Demand.DemandGate.SetWiiuEnabled | server/gst_webrtc.c:1525-1533 | The Wii U setting clears the flag and never re-examines the audience |
| Demand.DemandGate.SetDrcEnabled | server/gst_webrtc.c:1668-1707 | The GamePad setting re-examines every chain |
| Shaping.Outputs | server/controller_shaping.c:13-105 | Outside dead zone and cutoff each output is its share of the peak times the travel, rounded half away from zero; the final clamp never acts |
| Shaping.PeakIsTravel | server/controller_shaping.c:71-104 | The larger component is exactly the travel percentage, rounded half up |
| Calibration.CalibratedExactly | server/controller_shaping.c:13-105 | In percent of full deflection: nothing up to the dead zone, then each component its proportion of the travel gone between dead zone and reach, full from the reach on; the reach goes from range on an axis to diagonal half way between, in proportion |
| Calibration.OnAxis | server/controller_shaping.c:47-72 | On an axis, in whole numbers: 100(v - d)/(r - d) rounded half up for d < v < r, 100 from r on, nothing up to d |
| Calibration.OnDiagonal | server/controller_shaping.c:55-65 | On an exact diagonal both outputs are equal, and at least k percent if and only if the push is at least the dead zone and (2k - 1)/200 of the way from it to diagonal |
| Calibration.InAnyDirection | server/controller_shaping.c:47-104 | In any direction, in whole numbers: the larger component puts out at least k percent if and only if the push is at least the dead zone and (2k - 1)/200 of the live travel, with the stick's sign |
| Calibration.CentreIsZero | server/controller_shaping.c:31-33 | A centred stick puts out nothing |
| Calibration.OutOfRange | server/controller_shaping.c:25-27 | A setting out of range counts as the nearest one in range |
| Calibration.StateInPercent | server/controller_shaping.c:117-184 | Which values of a state are sticks and triggers, and that each is calibrated by its own settings |
| Shaping.CutoffIsZero | server/controller_shaping.c:87-104 | Below the near-zero cutoff nothing comes out |
| Shaping.LengthIsUnique | server/controller_shaping.c:29 | The length parameter is determined by the stick: it stands for the square root |
| Shaping.OddInEachAxis | server/controller_shaping.c:13-105 | Mirroring one axis mirrors that output and leaves the other |
| Shaping.SymmetricInAxes | server/controller_shaping.c:13-105 | Swapping the axes swaps the outputs |
| Shaping.MonotoneAlongRays | server/controller_shaping.c:13-105 | Pushing further in the same direction never makes either output smaller |
| Shaping.NeutralIsIdentity | server/controller_shaping.c:107-184 | The neutral profile leaves the whole state as it was |
| Shaping.InversionUndoes | server/controller_shaping.c:180-183 | Inverting the right stick twice is not inverting it, also at the lowest value |
| Shaping.ShapeInto | server/controller_shaping.c:117-184 | Copying and overwriting in place gives the shaped state |
| Merge.MergeAllMerges | server/gamepad_bridge.c:43-68 | The slot-order merge is a merge in an order-free sense: every value is at rest or some source's, none exceeds it |
| Merge.OrderDoesNotMatter | server/gamepad_bridge.c:57-68 | Any two merges of the same states agree on buttons and magnitudes, and on signs unless two sources tie exactly |
| Merge.LiveStatesAre | server/gamepad_bridge.c:45-55 | The states merged are exactly those of sources heard from within 1500 ms, on a wrapping clock |
| Merge.PurgedHolds | server/gamepad_bridge.c:52-55 | Giving up silent slots changes nothing that is live |
| Merge.UpdateMeans | server/gamepad_bridge.c:274-320 | An update replaces one source's state in the map of live sources, never duplicating a key; it is left out exactly when new and no slot is free |
| Merge.ForgetMeans | server/gamepad_bridge.c:322-344 | Forgetting leaves exactly the other sources |
| Merge.MergeOfLiveSources | server/gamepad_bridge.c:39-87 | Each merged value is at rest or a live source's, and no live source exceeds it |
| Merge.LiveInNumbers | server/gamepad_bridge.c:48-55 | A source is live for 1500 ms after its report, on a clock that wraps |
| Merge.SilentMakesRoom | server/gamepad_bridge.c:52-55 | The slot of a source that was silent for longer is free after the next merge, and a newcomer's state is held |
| Merge.FoldInNumbers | server/gamepad_bridge.c:57-67 | The four stick axes keep the larger deflection with its sign, the first of two equal ones; everything else the larger value |
| Merge.Bridge.Accumulate | server/gamepad_bridge.c:57-67 | The inner loop adds one state to the merge |
| Merge.Bridge.MergeSlot | server/gamepad_bridge.c:45-68 | One slot's turn: merged if live, given up if silent too long |
| Merge.Bridge.Combine | server/gamepad_bridge.c:39-87 | The slot loop merges the live sources and gives up the silent ones |
| Merge.Bridge.Update | server/gamepad_bridge.c:274-320 | An update is stored, then the shaped merge of the live sources is recomputed |
| Merge.Bridge.Forget | server/gamepad_bridge.c:322-344 | Forgetting clears the slot and recomputes at once |
| Merge.Bridge.SetShaping | server/gamepad_bridge.c:402-436 | A new calibration applies at once to what is held |
| Merge.MergePad | server/output_titan.c:720-746 | The report is the second merge with the adapter's own pad, clamped |
| Merge.ReportedInRange | server/output_titan.c:740-746 | A value from -100 to 100 is reported as it is, any other as the nearest of these |
| Merge.TwoStagesAreOne | server/output_titan.c:319-343 | Merging the table and then the pad is one merge of them all, whichever comes first, up to exact ties |
| PlaybackRing.RingIsDropOldestFifo | server/audio_capture.c:257-268 | Over any interleaving: queued chunks are the latest pushes, popped ones came out in push order, and each push is popped, dropped or queued exactly once |
| PlaybackRing.ApplySound | server/audio_capture.c:184-197 | Every push and pop keeps the queue the latest pushes, with the rest accounted for once, in order |
| PlaybackRing.DropsOnlyWhenFull | server/audio_capture.c:257-263 | A chunk is dropped if and only if a push finds the ring full, and it is the oldest |
| PlaybackRing.Corrected | server/audio_capture.c:204-213 | A chunk goes out with at most one frame more or less |
| PlaybackRing.CorrectedByAFrame | server/audio_capture.c:204-213 | Over eighteen chunks the last frame is left out, under six it is repeated, else the chunk goes out as it is; all else stays in place |
| PlaybackRing.FullShortensLastStretches | server/audio_capture.c:195-213 | So the chunk from a full ring is shortened and the last one there is lengthened |
| PlaybackRing.Ring.PushChunk | server/audio_capture.c:257-268 | The in-place push on head, tail and count is the queue's push |
| PlaybackRing.Ring.PopChunk | server/audio_capture.c:193-213 | The in-place pop takes the oldest chunk and corrects it by the fill it leaves |
| Config.Get | server/app_config.c:127-176 | The scanning loop computes the last value any line gives the key |
| Config.Rewritten | server/app_config.c:245-267 | The rewriting loop, line buffer by line buffer, computes the rewritten file |
| Config.EveryText | server/app_config.c:142-148 | Every text is ended lines and an open one, possibly empty |
| Config.RewriteIsByLine | server/app_config.c:245-269 | On a text of lines that one read brings whole, the rewrite replaces the first line that sets the key or appends the setting -- to the open line, if there is one |
| Config.OtherLinesUntouched | server/app_config.c:210-219 | The first line that sets the key is the one replaced, else one is appended; every other line keeps its place and text |
| Config.LookupIsByLine | server/app_config.c:142-174 | The lookup depends on the lines one by one, the open one included, however long |
| Config.GetAfterSet | server/app_config.c:127-176 | After a set, on files with or without a final newline: the new value, unless a later line still says something else, when the old reading stays; and nothing at all for a new key glued onto an open line that is not blank |
| Config.SetTouchesNoOtherKey | server/app_config.c:287-374 | Every other key reads as before, except exactly: a new key glued onto an open line makes the value set there longer (unless a carriage return ended it), or completes a name that line began |
| Config.LastSetWins | server/app_config.c:287-374 | Of several sets of one key only the last leaves a trace, if and only if the first was not glued on |
| Config.GluedSets | server/app_config.c:251-258 | A glued line sets what its beginning set, or the one key that the two parts spell together |
| Config.GluedValue | server/app_config.c:159-171 | The value glued onto becomes longer, unless a carriage return ended it |
| Config.SettingIsLost | server/app_config.c:247-269 | One such file, `A=1` without its newline: B is set and cannot be found, and A now reads `1B=2` |
| Config.ReaderAgreesWithWriter | server/app_config.c:150-157 | What the reader takes for a setting is one to the writer; on a line it sees whole, and conversely |
| LongLines.RewriteAtPlace | server/app_config.c:247-269 | In any text, lines of any length: the setting replaces the first piece the writer takes for the key, on a line from there on, and everything else is copied |
| LongLines.ReadingAfterSet | server/app_config.c:127-176 | What any key reads as after a set, in any text: the ended lines before the place, the open text before it with the setting glued on, and the rest |
| LongLines.GetAfterSetAlways | server/app_config.c:127-176 | In any text, a key that was set reads as what the text behind its place says, or else as the value set, or as nothing if it was put behind text on a line |
| LongLines.RestDecides | server/app_config.c:142-174 | The text behind the place decides only if one of its lines says something about the key |
| LongLines.WholeLineTouchesNoOtherKey | server/app_config.c:247-269 | Replacing a whole line, or appending one, changes the reading of no other key, however long the other lines |
| LongLines.GluedTouchesOthers | server/app_config.c:247-269 | In any text, a new key glued onto an open line changes exactly the reading of the key that line sets and of the key the two spell |
| LongLines.LongLineTailComesAlive | server/app_config.c:247-269 | A line of 4099 characters whose tail, after its key is set, reads as a setting that nothing had made |
| Config.DecimalReadsBack | server/app_config.c:376-397 | A number printed in decimal is read back by base-0 parsing, never taken for octal |
| ReadBack.QuotedReadsBack | server/app_config.c:159-169 | A value in double or single quotes, on an indented line or not, with a carriage return behind it or not, reads as what is between them |
| ReadBack.UnquotedReadsBack | server/app_config.c:159-169 | Any other value reads as it stands |
| ReadBack.CommentSaysNothing | server/app_config.c:150-154 | A comment sets no key |
| ReadBack.OtherKeySaysNothing | server/app_config.c:155-157 | A line about one key says nothing about another |
| ReadBack.HexReadsBack | server/app_config.c:376-388 | A number written in hexadecimal, capitals or not, negative or not, reads back |
| ReadBack.OctalReadsBack | server/app_config.c:376-388 | And one written in octal with a zero in front |
| ReadBack.TokenNeedsNoQuoting | server/app_config.c:292-302 | A value that may be set is not empty and has no character a shell would interpret |
| Config.GetIntAfterSetInt | server/app_config.c:225-284 | A number that was set is read back clamped to the caller's range, under the same conditions |
| Config.ConfigFile.SetStr | server/app_config.c:287-374 | Refuses empty keys, empty values and characters a shell would interpret, leaving the file as it was |
| Config.ConfigFile.SetInt | server/app_config.c:225-284 | Writes the decimal form; a failed write leaves the file as it was |
| Config.ConfigFile.ReadInt | server/app_config.c:376-397 | Falls back on a missing or unreadable number, clamps the rest |

## Left out

- WireSoundAlways: reads the wire back only for clients whose writes past the queue were all clean; `Framing.PastQueueExact` says exactly when one keeps the framing.
- PredictionSoundAlways: is about gentle runs; `PredictionRuns.RunChainsExact` says those are exactly the runs that keep every client parked or up to date throughout. Outside them it may still hold, as when a starved client is disconnected before its next frame.
- WaitingIsActedOn: is about times within 2^31 ms, about twenty-four days; beyond that the counter takes a deadline for one still to come.
- LaunchesCounted: counts from the last request, link-up or suspension, the events that restart the attempt counter.
- NeverTooFast: assumes the monotonic clock never reads zero, which the pacer takes for "never called"; `Pacing.ZeroClockPassesAll` shows why.
- GetAfterSet: is about lines that the writer's buffer holds, and text without NUL; `LongLines.GetAfterSetAlways` is about every text.
- SetTouchesNoOtherKey: likewise, and for a glued setting assumes the reader's buffers hold the line; `LongLines.ReadingAfterSet` says what any key reads as in every text.
- PassedOverIsAskedFor: is about a client whose seat and stream are both on predictive codecs, a pipeline that has registered to be asked, and takes the first second of the process for a request.
- Interleavings inside one function: steps are whole functions, except the split of the service pass shown in `Recovery`.
- WebSocket input: a browser's bytes and pings enter already out of their frames; masking, the close frame and reassembly are not part of the model.
- The refusal reply to a bad greeting: the client is dropped in the same step, and with it its history.
- Where messages other than codec and keyframe requests lead: input, HOME, capture, profile, wake, restart, reset.
- Frames already encoded when the codec moves: a frame is taken to be of the codec the stream carries when it is broadcast.
- UDP audio datagrams beyond their audience, their size limits, and the UDP socket check before the ADPCM path; a packet is its header fields and codes, sent or not as listeners are there.
- Sockets, poll, threads, TCP buffer sizes: what the kernel answers is a parameter; whether a player may control is the answer of the password check, also a parameter.
- Subprocesses, D-Bus and the beacon itself: whether a helper spawns, exits or brings the link up, and whether the beacon was sent, are parameters.
- The two ways the bridge reaches the Bluetooth backend are taken as calls; other output backends do not suspend for a wake.
- Encoders, the capture pipeline and the restart of a chain: only the `wanted` flags and the frame admission are modelled.
- Rounding of `float` in the stick shaping: arithmetic is over the reals, and the square root is a parameter that the methods require to be one.
- The adapter's HOME overlay, its own slot table's updates (the same code as the bridge's) and USB reports.
- Waiting for a chunk, reopening the speakers, and volume: the ring's data and its correction are modelled.
- The settings file's cache, temporary file and rename: a write happens whole or not at all.
- Update in place is modelled for the client table, receive buffers, slot array, ring and shaping output; the per-stream tables and the send buffer are sequences that methods reassign, and a client's flags are one record.
