# neosh session server: a Dafny model

neosh is a remote terminal over QUIC. Its server, `neoshd`, keeps one terminal session and lets one
connection at a time hold it. Connections come and go; the session may be detached and resumed, and
ends by CLOSE, by the exit of its shell or by a timeout. This project models the server as a step
system and proves what every interleaving of its steps keeps. It also models the byte-level parts of
the protocol and of the client exactly.

## How it is built

Each part that the source updates in place is a class. Its methods are verified against functions on
values, and the laws are lemmas about these functions.

| files | what they model |
|---|---|
| `SessionManager.dfy`, `SessionRuns.dfy` | the session table, and any sequence of calls on it |
| `TokenService.dfy`, `TokenRuns.dfy` | the token vector, and its runs next to a reference that has no vector |
| `TokenHistory.dfy`, `TokenAccounting.dfy`, `SweepHistory.dfy`, `SweeperTransparency.dfy` | what a run accepts, told by its history; how many tokens; what sweeps remove and what that changes |
| `Dispatcher.dfy`, `MessageOrder.dfy`, `Conversations.dfy` | the message-order machine, its language as a regular expression, and what each connection of a run says |
| `Server.dfy`, `ConnectionHandler.dfy`, `WireErrors.dfy` | the state behind the lock, one turn of a connection's loop, the error codes |
| `SessionProtocol.dfy`, `SessionInvariant.dfy`, `SessionHistory.dfy` | the interleaved system, its invariant, its history |
| `ProtocolRuns.dfy`, `ProtocolTimeouts.dfy`, `ProtocolAnswers.dfy`, `ProtocolReleases.dfy`, `ProtocolOrphans.dfy`, `AuthPairing.dfy`, `TokenSources.dfy`, `LeftoverClock.dfy`, `ClosedThenExpired.dfy`, `FailureRuns.dfy` | what holds in every reachable state and run |
| `Framing.dfy`, `ReplayBuffer.dfy` | length-prefixed frames and their reader, the bounded replay buffer |
| `DetachScanner.dfy`, `BridgeLoop.dfy`, `ShellQuote.dfy` | the client's detach hotkey, its write loop, its shell quoting |

In the step system every critical section under the state lock is one step, taken by any connection,
the accept loop, the token sweeper or the local socket, in any order. A handler may return early
without cleanup at any turn. Two hypotheses are stated in `TokenRuns.WellFormed` and
`SessionProtocol.Enabled`: the clock does not go back, and a freshly drawn token never has the digest
of one issued before. SHA-256 is a function parameter `h`; equal digests are treated as equal tokens.

## What the code does that its documents do not say

- `Terminated` is not final. CLOSE on a detached session leaves the detach clock running, and a later
  check turns the session into `Expired` and reports `detached_session_timeout`
  (`LeftoverClock.TerminatedOverwrittenIff`, `ClosedThenExpired.TerminatedThenExpired`).
- A handler that returns early while it holds the session skips its cleanup. The session stays
  attached to a connection that is gone, and no timeout runs; only a CLOSE ends it. The exact condition
  for a turn is `ProtocolOrphans.TurnOrphansIff`, for a run `OrphanedIff`, and for how long
  `OrphanHeldUntilClose`.
- `neosh_protocol_v0.1.0.md` says that every failed request gets an ERROR. Exactly four kinds get none,
  though the server could write one: a frame that is over 64 KiB or cut off by the end of the stream,
  an ATTACH or RESUME that takes the session and then cannot start its PTY or its data plane, a RESIZE
  that the PTY refuses, and a DETACH of an ended session (`ProtocolAnswers.SilentFailuresIff`; runs in
  which each happens are in `FailureRuns`). A HELLO for another protocol version is no failed request
  to this server: it never reads the version.
- The same document says that AUTH_OK puts the session into CREATED. The code creates it so at start,
  and AUTH changes nothing but the token store (`ProtocolAnswers.AuthAnswers`).
- Bytes typed before the detach hotkey are lost when they arrive in the read that completes it
  (`BridgeLoop.NothingLostIff`).
- A path or command with an apostrophe, and nothing else, changes the single-quoted bootstrap script
  on its way to the inner shell (`ShellQuote.OuterLayerIff`, `ApostropheEndsScript`).
- An expired resume token that a sweep has removed is answered AUTH_FAILED instead of SESSION_EXPIRED
  (`SweeperTransparency.SweepsAreTransparent`).

## Model

| member | source | states |
|---|---|---|
| `ProtocolRuns.ExclusiveOwnership` | src/bin/neoshd.rs:745-763 | in every reachable state a handler that attached and has not detached owns the session at its own epoch, or the session has ended; never two such handlers |
| `ProtocolRuns.CleanupNeverDisturbs` | src/bin/neoshd.rs:1042-1069 | final cleanup, its unguarded terminate included, never touches a session held by another connection, and afterwards the cleaned-up connection does not own it |
| `ProtocolReleases.CleanupIsExact` | src/bin/neoshd.rs:1042-1069 | the whole effect of any cleanup in any reachable state: at a plain connection end the session is Terminated without a clock if the shell has exited, and otherwise, while it is live, Detached with the clock at this moment; in all other cases nothing changes |
| `ProtocolReleases.StreamEndLeavesLoop` | src/bin/neoshd.rs:632-636 | when the stream ends or cannot be read the handler leaves its loop, with a cleanup to follow iff it had attached |
| `ProtocolReleases.StreamEndReleases` | src/bin/neoshd.rs:890-897 | the owner's stream ends, anything happens, its cleanup runs: then the session is Terminated if the shell has exited by then, as it was if it had ended, and Detached from this moment otherwise |
| `ProtocolReleases.ShellStartsOnce` | src/bin/neoshd.rs:900-947 | after any run the shell counts as exited iff it exited in some step: no later attach starts another |
| `ProtocolReleases.AttachStartsShell` | src/bin/neoshd.rs:759-761 | a turn that takes the session has the shell started, unless it had been, and a new one has not exited; or it ends its handler |
| `ProtocolRuns.FinishedNeverOwns` | src/bin/neoshd.rs:890-897 | a handler that has finished is never the owner again, in any continuation |
| `ProtocolRuns.HandlerInLockstep` | src/bin/neoshd.rs:627-657 | `authed` and `attached_epoch` agree with the dispatcher at every turn, which is never Closed |
| `ProtocolRuns.DeadBranches` | src/bin/neoshd.rs:725-781 | the "before AUTH" branches and the PONG/ERROR arm are unreachable |
| `ProtocolRuns.EndIsFinal` | src/session/manager.rs:101-106 | once Expired or Terminated, no run leaves these two states, attaches, or moves the epoch |
| `ProtocolRuns.StopReasonsTruthful` | src/bin/neoshd.rs:565-578 | a timeout reason leaves the session Expired, SessionTerminated means Terminated, SessionExpired is never given, and no reason means nothing changed |
| `ProtocolRuns.StopsOnce` | src/bin/neoshd.rs:581-585 | the accept loop stops once, for one reason; for EndpointClosed iff the endpoint was closed |
| `ProtocolRuns.NobodyWaits` | src/bin/neoshd.rs:560-602 | in every state each party can take its next step, whatever the others are doing |
| `ProtocolRuns.CreatedIffNeverAttached` | src/session/manager.rs:54-73 | Created exactly while no connection has ever attached and the session has not ended |
| `ProtocolRuns.InitialTimeoutDisarmed` | src/bin/neoshd.rs:311-328 | after the first attach the initial timeout never fires again |
| `ProtocolRuns.Accounting` | src/bin/neoshd.rs:686-711 | attaches belong to distinct connections, each of which has authenticated; authentications equal resume tokens issued and consumed auth tokens, at most the auth tokens issued; the epoch is the number of attaches, capped at the u64 bound |
| `AuthPairing.AuthsArePaired` | src/bin/neoshd.rs:686-711 | the i-th connection to authenticate did so by presenting the i-th consumed auth token and was given the i-th resume token; none of the three occurs twice |
| `TokenSources.RenewIsForOwner` | src/bin/neoshd.rs:523-546 | a renewal issues one auth token if peer uid, session and user are the owner's, and changes nothing otherwise |
| `TokenSources.TokensAreSourced` | src/bin/neoshd.rs:264-274 | after any run every issued token is the bootstrap token or was drawn in some step for the owner's renewal or for an AUTH, for this session, its owner and the configured time |
| `TokenSources.AcceptedTokensAreOwners` | src/bin/neoshd.rs:523-546 | every token that AUTH ever accepts is the bootstrap token or was drawn for a request with the owner's uid, this session and the owner's name |
| `ProtocolRuns.ReplayIsTailOfOutput` | src/bin/neoshd.rs:992-1001 | in every reachable state the replay buffer is the last bytes of all output appended |
| `ProtocolTimeouts.ClockRunsIffDetached` | src/bin/neoshd.rs:752-760 | unless the session has ended, `detached_at` is set exactly while it is Detached |
| `ProtocolTimeouts.DetachClock` | src/bin/neoshd.rs:862-870 | a detached session carries the time of the release that detached it, and has been detached ever since |
| `ProtocolTimeouts.TimeoutAfterWholeDetachment` | src/bin/neoshd.rs:292-309 | a live session the timeout ends had been detached without a break for `session_timeout`; an attached one is never expired |
| `ProtocolTimeouts.StopReasonIff` | src/bin/neoshd.rs:560-579 | the exact condition for each stop reason, in any reachable state |
| `LeftoverClock.TerminatedOverwrittenIff` | src/bin/neoshd.rs:292-309 | a check turns Terminated into Expired, and reports a timeout, if and only if the run released the session at some step, closed it while it was still detached, and the session timeout has passed since the release; otherwise it reports SessionTerminated |
| `LeftoverClock.ClockMeansUnclaimed` | src/bin/neoshd.rs:862-878 | in every reachable state, ended sessions included: while the detach clock runs, no handler that is still there has attached without detaching |
| `ClosedThenExpired.TerminatedThenExpired` | src/bin/neoshd.rs:872-878 | a whole run in which that happens |
| `ProtocolOrphans.OrphanHeldUntilClose` | src/bin/neoshd.rs:765-770 | a session whose owner returned without cleanup stays held, with no timeout, through any run if and only if no CLOSE gets through |
| `ProtocolOrphans.TurnOrphansIff` | src/bin/neoshd.rs:745-885 | exactly when a turn leaves the session held by a handler that is gone: it takes the session and then cannot start its PTY, write its reply or start the data plane; or it is attached to a live session and cannot write a PONG or ERROR, or its resize fails |
| `ProtocolOrphans.OrphanedIff` | src/bin/neoshd.rs:745-897 | after any run the session is held by nobody that is there iff some step orphaned it and no CLOSE has got through since |
| `ProtocolOrphans.FailedReplyOrphans` | src/bin/neoshd.rs:879-885 | an attached handler of a live session that cannot write the PONG to a PING orphans it |
| `FailureRuns.OrphanReached` | src/bin/neoshd.rs:879-885 | a whole run in which that happens |
| `ProtocolAnswers.HelloAnswers` | src/bin/neoshd.rs:660-673 | the first HELLO is answered HELLO_ACK with the session timeout, and AUTH is next |
| `ProtocolAnswers.PingAnswers` | src/bin/neoshd.rs:879-885 | PING is answered PONG in every state and changes nothing |
| `ProtocolAnswers.ResizeAnswers` | src/bin/neoshd.rs:844-861 | a RESIZE gets no reply and changes nothing; it ends the handler iff the PTY refuses it |
| `ProtocolAnswers.ProtocolErrorIff` | src/bin/neoshd.rs:638-657 | PROTOCOL_ERROR is the answer to exactly the unknown messages, those out of order and the requests that do not parse; nothing changes and the loop is left |
| `ProtocolAnswers.AttachAnswers` | src/bin/neoshd.rs:745-772 | ATTACH takes the session iff it is Created or Detached; ATTACH_DENIED iff it is held; SESSION_EXPIRED iff it has ended; SESSION_NOT_FOUND iff the id is another |
| `ProtocolAnswers.ResumeAnswers` | src/bin/neoshd.rs:793-843 | RESUME attaches iff moreover its token is good by the history of the run, and reports the replay size; SESSION_NOT_FOUND iff the id is another, AUTH_FAILED iff the token was not issued for this session or has been swept away, SESSION_EXPIRED iff it is another that has expired or been revoked, or the session has ended |
| `ProtocolAnswers.AuthAnswers` | src/bin/neoshd.rs:686-724 | AUTH_OK iff the token was issued as an auth token, in time, not revoked and never accepted before; AUTH_FAILED otherwise, with nothing changed; never a change outside the token store; the same when the reply cannot be written |
| `ProtocolAnswers.AuthUsesUpToken` | src/bin/neoshd.rs:690-711 | a good token is used up for good by the turn that presents it, whether or not AUTH_OK can be written |
| `ProtocolAnswers.DetachAnswers` | src/bin/neoshd.rs:862-871 | DETACH releases the session, or returns without a reply iff the session has ended |
| `ProtocolAnswers.CloseAnswers` | src/bin/neoshd.rs:872-878 | CLOSE from any authenticated connection ends the session, whoever holds it, and leaves the detach clock |
| `ProtocolAnswers.SilentFailuresIff` | src/bin/neoshd.rs:632-888 | what fails gets an ERROR, with nothing changed, except in exactly four cases: a frame too large or cut off, an ATTACH or RESUME that takes the session and then cannot start PTY or data plane, a refused resize, a DETACH of an ended session; and exactly which turns get no reply; conditions on the state before the turn alone |
| `ProtocolAnswers.OversizedRequestIsDropped` | src/bin/neoshd.rs:1071-1079 | any request framed with a payload over 64 KiB ends the loop without a word and changes nothing, with its bytes still on the stream |
| `Connections.FramedInput` | src/bin/neoshd.rs:1071-1089 | a framed payload is read as its message iff its length, in 32 bits, is within the limit |
| `FailureRuns.UnreadableFrame` | src/bin/neoshd.rs:632-635 | it happens: an oversized or cut-off frame |
| `FailureRuns.AttachWithoutTerminal` | src/bin/neoshd.rs:760-770 | it happens: an ATTACH whose PTY or data plane does not start |
| `FailureRuns.RefusedResize` | src/bin/neoshd.rs:856-860 | it happens: a resize the PTY refuses |
| `FailureRuns.DetachAfterEnd` | src/bin/neoshd.rs:862-871 | it happens: a DETACH after another connection closed the session |
| `SessionProtocol.TurnKeeps` | src/bin/neoshd.rs:632-888 | one turn keeps the session's and the handler's invariant and moves the session only as its own connection may |
| `SessionInvariant.AcceptChecksKeep` | src/bin/neoshd.rs:565-578 | the accept loop's checks leave everything alone or expire the session and stop for a timeout |
| `SessionInvariant.CleanUpKeeps` | src/bin/neoshd.rs:1042-1069 | what the final cleanup keeps and may change |
| `SessionInvariant.StepKeeps` | src/bin/neoshd.rs:560-602 | every step of every party keeps the invariant over all connections |
| `SessionHistory.TurnRecorded` | src/bin/neoshd.rs:690-710 | a turn consumes and issues tokens exactly when it authenticates, and moves the epoch exactly when it attaches |
| `SessionHistory.HistoryKeeps` | src/bin/neoshd.rs:686-831 | every step keeps token store, replay buffer and counts in agreement with the history |
| `SessionRuns.RunRefinesMachine` | src/session/manager.rs:91-174 | under any calls on any sessions, each session is a five-state machine driven by its own calls alone |
| `SessionRuns.AttachAnswer` | src/session/manager.rs:91-117 | an attach succeeds iff the machine is Created or Detached, and each failure names its state |
| `SessionRuns.ReleaseKeepsTheEnd` | src/session/manager.rs:119-154 | no detach or cleanup moves an ended session out of its state |
| `SessionRuns.IdentityIsKept` | src/session/manager.rs:91-174 | no calls change a session's id, user, address or fingerprint |
| `SessionRuns.RunNeverReopens` | src/session/manager.rs:156-174 | an ended session has no owner again, Created does not come back, the epoch never falls |
| `Sessions.SessionManager.CreateSessionWithId` | src/session/manager.rs:54-73 | inserts a new Created session at epoch 0 and nothing else |
| `Sessions.SessionManager.AttachExclusive` | src/session/manager.rs:91-117 | table and result of an attach, errors included |
| `Sessions.SessionManager.Detach` | src/session/manager.rs:119-133 | only the owner detaches; an ended session keeps its state |
| `Sessions.SessionManager.ConditionalStaleCleanup` | src/session/manager.rs:135-154 | releases exactly when connection and epoch both match |
| `Sessions.SessionManager.Terminate` | src/session/manager.rs:156-164 | ends the session from any state and drops its owner |
| `Sessions.SessionManager.Expire` | src/session/manager.rs:166-174 | expires the session from any state and drops its owner |
| `TokenRuns.VectorRefinesReference` | src/token/service.rs:61-177 | digests in the vector stay distinct, and for every digest the vector agrees with the history or has forgotten an expired record; exactly so without sweeps |
| `TokenRuns.LookupSweep` | src/token/service.rs:150-170 | sweeping a vector of distinct digests keeps exactly the retained records, each still the one found |
| `TokenHistory.ReferenceIsHistory` | src/token/service.rs:71-81 | the record of an issued token is its issue, consumed iff accepted and revoked iff revoked since |
| `TokenHistory.AuthAcceptedIff` | src/token/service.rs:85-114 | AUTH is accepted iff its token was issued as an auth token for this session and user, is in time, not revoked, not accepted before; sweeps anywhere |
| `TokenHistory.ResumeAcceptedIff` | src/token/service.rs:116-140 | the same for RESUME, as often as asked |
| `TokenHistory.AuthTokenSingleUse` | src/token/service.rs:108-113 | two accepted AUTH attempts never present the same token |
| `TokenAccounting.AcceptedWithinIssued` | src/token/service.rs:85-114 | accepted digests are distinct, all issued as auth tokens, and no more than these |
| `SweepHistory.LookupByHistory` | src/token/service.rs:150-177 | after any run a search finds nothing if some sweep ever found the record outside its retention, and otherwise exactly the record the history gives |
| `SweepHistory.RemovesIff` | src/token/service.rs:150-170 | a sweep finds an issued token's record so iff it comes at or after its expiry and no acceptance or revocation of it lies within the retention |
| `SweepHistory.AnswerByHistory` | src/token/service.rs:85-140 | each of the six verdicts on AUTH and RESUME has its exact condition in the history of the token |
| `SweepHistory.RevokeByHistory` | src/token/service.rs:142-148 | a revocation succeeds iff the token was issued and no sweep has removed it |
| `SweepHistory.SweepKeepsExactly` | src/token/service.rs:150-170 | a sweep of any vector keeps exactly the unexpired records and those marked within the retention; a mark in the future does not count |
| `SweepHistory.SweepKeepsOrder` | src/token/service.rs:150-170 | and keeps them in their order |
| `SweeperTransparency.SweepsAreTransparent` | src/token/service.rs:150-170 | after any run, with or without its sweeps, the same attempts are accepted; AUTH is answered the same; RESUME differs iff its token was issued as a resume token for this session and user and a sweep has since removed it |
| `SweeperTransparency.SweepingChangesOneAnswer` | src/bin/neoshd.rs:1318-1326 | a run where SESSION_EXPIRED becomes AUTH_FAILED |
| `SweeperTransparency.SweptTokenStaysRefused` | src/token/service.rs:150-170 | removing a consumed record never makes its token acceptable again |
| `Tokens.Find` | src/token/service.rs:172-177 | the first record with the digest, or none has it |
| `Tokens.TokenService.IssueToken` | src/token/service.rs:61-83 | appends one unmarked record with its expiry |
| `Tokens.TokenService.FindRecord` | src/token/service.rs:172-177 | the search loop finds the first match |
| `Tokens.TokenService.ValidateAndConsumeAuth` | src/token/service.rs:85-114 | verdict by the checks in their order; marks the record iff accepted |
| `Tokens.TokenService.ValidateResume` | src/token/service.rs:116-140 | verdict by the checks in their order; changes nothing |
| `Tokens.TokenService.RevokeToken` | src/token/service.rs:142-148 | marks the first match as revoked, or NotFound |
| `Tokens.TokenService.CleanupExpired` | src/token/service.rs:150-170 | the retain loop keeps unexpired and recently marked records, in order |
| `Dispatching.Dispatcher.OnMessage` | src/protocol/dispatcher.rs:43-75 | next state and answer for every state and message |
| `MessageOrder.CompleteConversations` | src/protocol/dispatcher.rs:43-75 | the words that close the dispatcher are exactly those of PING* HELLO PING* AUTH PING* (CLOSE, or (ATTACH or RESUME) (RESIZE, DETACH or PING)* CLOSE) |
| `MessageOrder.AcceptsExactlyPrefixes` | src/protocol/dispatcher.rs:43-75 | a word is accepted iff it can be continued to such a conversation |
| `MessageOrder.ClientNeverRefused` | src/bin/neosh.rs:365-461 | whatever the client sends up to its first DETACH or CLOSE, or any part of it, is accepted |
| `Conversations.EveryConversation` | src/bin/neoshd.rs:627-657 | in any run, whatever the others do, what one connection gets through begins a conversation of the grammar, and its dispatcher is where that leads |
| `Connections.ConnectionHandler.Turn` | src/bin/neoshd.rs:632-888 | one turn of the loop in place: new server state, new locals and the reply |
| `Connections.ConnectionHandler.OnAuth` | src/bin/neoshd.rs:674-724 | AUTH consumes one token and issues another, or refuses |
| `Connections.ConnectionHandler.AttachTo` | src/bin/neoshd.rs:752-772 | attach, stop the detach clock, start the PTY, reply; early return without cleanup where one of these fails |
| `Connections.ConnectionHandler.OnResume` | src/bin/neoshd.rs:773-843 | RESUME checks id, token and session in this order |
| `Connections.ConnectionHandler.OnDetach` | src/bin/neoshd.rs:862-871 | DETACH releases, starts the detach clock and leaves the loop |
| `Connections.ConnectionHandler.Cleanup` | src/bin/neoshd.rs:890-897 | the final cleanup runs iff the connection had attached |
| `ServerCore.ServerState.AppendReplay` | src/bin/neoshd.rs:284-290 | appends and drains the overflow |
| `ServerCore.ServerState.ExpireIfDetachedTimeout` | src/bin/neoshd.rs:292-309 | expires the session iff the detach clock has run out |
| `ServerCore.ServerState.ExpireIfInitialAttachTimeout` | src/bin/neoshd.rs:311-328 | expires a session that is still Created after the initial timeout |
| `ServerCore.ServerState.AcceptChecks` | src/bin/neoshd.rs:565-578 | the three checks in their order, with the stop reason |
| `ServerCore.ServerState.RenewAuth` | src/bin/neoshd.rs:523-546 | a new auth token iff uid, session and user all match |
| `ServerCore.ServerState.FinalizeConnectionCleanup` | src/bin/neoshd.rs:1042-1069 | explicit detach, PTY exit and plain end, each with its whole effect on session and clock |
| `ReplayBuffer.AppendsKeepTail` | src/bin/neoshd.rs:284-290 | any appends leave the last bytes of all that was appended, for every capacity |
| `Framing.MostSignificantFirst` | src/protocol/framing.rs:13-16 | the four bytes of a length, most significant first, are its low 32 bits |
| `Framing.DecodeRefuses` | src/protocol/framing.rs:21-37 | each decoding error has its exact condition on the buffer |
| `Framing.DecodeAfterEncode` | src/protocol/framing.rs:13-37 | a frame decodes to its payload iff the payload is within the limit and its length fits 32 bits |
| `Framing.EncodeAfterDecode` | src/protocol/framing.rs:21-37 | whatever decodes re-encodes to the same bytes |
| `Framing.EncodeFrame` | src/protocol/framing.rs:13-19 | the encoder builds the frame |
| `Framing.RecvStream.ReadControlFrame` | src/bin/neoshd.rs:1071-1089 | one read: payload or error, and what is left of the stream; the inner decode never fails |
| `Framing.InnerDecodeSucceeds` | src/bin/neoshd.rs:1085-1087 | after the reader's own checks the decoder succeeds with the same payload |
| `Framing.ReadAllFrames` | src/bin/neoshd.rs:1071-1089 | repeated reads return exactly the payloads that were framed, whatever follows |
| `Framing.TruncatedStream` | src/bin/neoshd.rs:1071-1089 | cut anywhere, a stream yields its whole frames and then a truncation error |
| `Framing.ReadAllSound` | src/bin/neoshd.rs:1071-1089 | what is read of any bytes is their frames, up to the first place where there is none |
| `DetachScanner.ProcessStdinChunkForDetach` | src/bin/neosh.rs:802-823 | the scanning loop computes the scan |
| `DetachScanner.ScanIsCorrect` | src/bin/neosh.rs:802-829 | detach iff byte 1 is immediately followed by 100 or 68; output is all before the first such place, or everything short of a last byte 1, with 8 turned into 127 and all else as it is |
| `DetachScanner.ChunkingIsInvisible` | src/bin/neosh.rs:653-665 | however the input is cut into chunks, output, detach flag and held Ctrl-A are the same |
| `BridgeLoop.BridgeTerminal` | src/bin/neosh.rs:648-677 | the write loop sends what the specification says; on a stream that breaks, its first bytes up to there, and the hotkey is reported iff all before it got through |
| `BridgeLoop.BridgeIsExact` | src/bin/neosh.rs:648-677 | without a hotkey the whole input is sent, normalised; with one, the input before the read that completes it, short of a held Ctrl-A |
| `BridgeLoop.NothingLostIff` | src/bin/neosh.rs:659-665 | everything before the hotkey is sent iff the completing read starts at the hotkey or inside it |
| `BridgeLoop.OneReadLosesItsBytes` | src/bin/neosh.rs:659-665 | an input whose bytes are lost |
| `ShellQuote.FourReplacesAreOnePass` | src/bin/neosh.rs:930-940 | four replacements in a row escape each special character exactly once |
| `ShellQuote.DoubleQuoteRoundTrip` | src/bin/neosh.rs:930-940 | a shell reads the quoted text back exactly, nothing expanded, whatever follows |
| `ShellQuote.SingleQuotedWordIff` | src/bin/neosh.rs:901-911 | as one shell word, the single-quoted script reads as it was written iff it has no single quote |
| `ShellQuote.OuterLayerIff` | src/bin/neosh.rs:901-911 | through both layers: the script arrives as written iff the quoted text has no single quote, and the inner shell then reads exactly that text |
| `ShellQuote.ApostropheEndsScript` | src/bin/neosh.rs:930-940 | an apostrophe alone shows it: the inner shell does not get the script |

## Left out

- QUIC and TLS, certificates, port binding, SSH, Unix sockets, peer credentials: messages, failures and the peer uid arrive as step parameters.
- PTY, terminal mode and window size: two flags, started and exited, and a start that may fail.
- SHA-256, base64, randomness and constant-time comparison: a digest function and the freshness hypothesis.
- JSON and UUID text: messages start as a kind with typed fields, or as a request that does not parse.
- HELLO's payload: the document requires an ERROR for an unsupported `protocol_version`, but the handler never reads that field.
- The overflow of `SystemTime` additions: instants are unbounded naturals.
- Delivery of output to a client, broadcast lag and overlapping forwarders: only appends to the replay buffer are steps.
- A standard-input stream of the client that takes bytes again after a failed write: once broken it stays so.
- `jti`, `create_session` and `assert_owner`: no step of the server reads or calls them.
- The full text of the bootstrap script: the outer layer is stated for any text before and after the quoted word.
- `src/runtime.rs`, `src/client/*`, `ffi/neosh-client-c` and the `client_id` takeover of the v0.2.0 documents: not part of this model.
