# Countinghouse: a model of its concurrent core, with proofs

A Dafny model of the parts of Countinghouse whose correctness depends on more than one
function: the direct peer-channel protocol between worker threads and its billing, the
lifecycle of module workers, and four small algorithms whose answers have to be exact.

`dafny verify dfyconfig.toml` verifies everything.

## How it is built

An object of the source that changes state is a class whose methods are its event handlers, each
proved equal to a transition function on values (`State() == F(old(State()), ...)`).  The
transition functions are then composed into runs, sequences of events in any order the event
loop allows, and the results are invariants over every run.

| files | what they hold |
|---|---|
| `PeerEnd`, `PeerEndInvariants`, `PeerChannel` | one end of a channel: transitions, invariant of every run, the class |
| `PeerLink` | two ends and the wires between them |
| `PeerBrokering` | the broker, all workers and their queues as one state machine |
| `PeerChannelBroker`, `PeerRoutes` | the broker and the workers' halves as classes |
| `PeerSafety`, `PeerRequests`, `PeerCalls`, `PeerCompleteness` | the invariants of that machine, kept by every step |
| `PeerResults`, `PeerTwoWay`, `PeerReopened` | the results over whole runs, and why they need their conditions |
| `PeerGrants`, `PeerTold` | the registry against what was authorized, and what the main thread tells each worker |
| `HopBilling`, `RoutedBilling`, `CtxClients`, `BillingPath` | billing on the direct path, on the routed path, of shared clients, and from a handler's invoke to the charge |
| `WorkerRequests`, `TokenBucket`, `WorkerMessage` | requests to a worker, its message rate, and the class that has both |
| `Heartbeat`, `Lifecycle`, `LifecycleResults`, `ModuleLifecycle`, `Supervisor`, `ModuleSupervisor`, `RwLock` | worker lifecycle and locks |
| `Composition` | composition verification and the ready line |
| `SourceScanner`, `SourceModes`, `SourceTokens`, `SourcePrefix`, `HandlerMap`, `Permissions`, `SpecMigration` | the exact algorithms |

## What the model assumes

- An event handler runs to its end before the next one starts; each queue (main thread to
  worker, worker to main thread, each direction of a port) is first in, first out; a closed
  port delivers nothing; `Date.now()` never goes back; doubles are reals.
- `userAuth`, metering and other providers call back once, and after the handler that asked
  has returned.  The callee's `onInvoke` replies once for each dispatch.
- In `Lifecycle` a module can be taken off its worker at any time, and a record can be made or
  cleared at any time; what a section does when it begins is decided by the state alone.
- A lock holder releases once, as what it acquired.  The worker's exit is the only caller of
  `endWith`, as it is in the source; what would happen otherwise is stated by
  `AnsweredTwiceIffCallbackEnds`.
- In `PeerBrokering`, `wire[p]` is the caller's send queue, the port and the callee's dispatch
  queue of port `p` as one queue; `PeerLink.ServedInCallOrder` shows that they are one.
- Some fields are history that no transition reads (logs, `received`, `posted`, `made`,
  `exchanges`, `acted`, `answered`, `told`, `lastOpen`, the port carried by Allow and Invalidate,
  `grants` and `held` of the lock).  They exist to state results: what came in is recorded from
  the step that brings it, never from what a handler makes of it.

## What turned out false, and exactly when it holds

- A callee's dispatch queue is not always empty: it is, in every run and whichever end has
  closed, if and only if the callee's cap is at least the caller's
  (`CalleeQueueEmptyIffCapWithin`).
- A call can be misdirected although it was authorized, if two workers call each other: their
  two channels share one slot.  A run misdirects a call exactly if some call was sent, by a
  grant or on the fast path, while its worker served the one it was for
  (`MisdirectedIffServing`); `TwoWayRunMisdirects` and `FastPathRunMisdirects` are runs that do.
- Closing a channel is not transparent to the caller, as lib/device-manager.js:287-293 says it
  is: the device stays mapped to its worker, and is refused PEER_NOT_GRANTED once another
  channel to that worker is open (`ReopenedRunRefuses`).  A run refuses a call exactly if a
  callee is given a device its channel does not allow (`RefusedIffUnallowed`), and always for
  a device that was never granted on that very port (`UngrantedIsRefused`); for a call on the
  fast path the callee's set decides (`FastCallRefusedIff`).  `NeverRefused` covers every run
  without invalidation and with one calling direction.
- A hop that failed can have been charged.  On the routed path a hop answered with an error is
  charged exactly if its timer expired first and its callee succeeded later, with a key to
  charge (`RoutedBilling.AnswersMatchCharges`, `FailedAndCharged`).  On the direct path a call
  answered by its timer or by PEER_GONE is metered exactly if its action succeeded all the same
  and there was a key (`HopBilling.AnswersMatchCharges`, `TimedOutAndCharged`).
- A request would be answered twice exactly if its callback called `endWith` itself while its
  reply is being handled, because the request is forgotten only after the callback
  (`AnsweredTwiceIffCallbackEnds`).  No callback in the source does.
- The comment "at least two ticks per maxBlockMs" holds for the default interval if and only
  if `maxBlockMs` is at least 100 (`TwoTicksIff`).
- Two targets can share a cached service client.  A cache key belongs to one target alone, and
  no run sends an invoke for that target elsewhere, if and only if its device ID, service ID and
  identity hold no `|` (`KeyOwnedIff`, `MisdirectsIffSeparator`).
- The handler-map check lets a declared name without a handler pass, if objects inherit that
  name, `toString` for one (`InheritedNamePasses`); `SoundAndComplete` is the exact statement.
- The identity prefix can land inside a comment: exactly if the source ends in a line comment
  without a line feed, or in a comment that is not closed, and nothing but directives and trivia
  comes before it (`InsideCommentIff`, `StartsInCodeIff`, `TrailingCommentSwallows`).
- The scanners end a hashbang line and a line comment, and break off a string, at a line feed
  only.  Up to the place they read a source as ECMAScript does, from its start, exactly if the
  hashbang line holds no other line end before its own, but for the carriage return of a CR LF
  (`HeaderAgreesIff`), no carriage return, U+2028 or U+2029 is read in a line comment, and no
  carriage return in a string (`EcmaScriptAgreesIff`).  Otherwise the place can be inside a comment
  (`CarriageReturnMisplaces`, `HashbangMisplaces`), and code after a hashbang can get no prefix at
  all (`HashbangUnprefixed`).
- Strict mode does not always stay first.  A directive of ECMAScript, where the scanner finds the
  token after it, is taken for one exactly if it holds no escaped CR LF and the scanner is not
  unsure of it: it is of one before a lone `!`, before `++`, `--` or a number such as `.5`, before
  an identifier such as `in$`, and of one whose only line end is a carriage return
  (`DirectiveTakenIff`, `LoneTokenDemotes`).  If nothing before it is misread, the scanner finds
  the next token exactly if no space it does not know, nor a comment that begins with `<!--` or
  `-->`, stands there (`SameTokenIff`); such a space or comment also hides the directives behind
  it (`LeftBehindOnlyFor`).
- What the scanner takes for a directive need not be one: not if a comment after it is misread,
  or a space the scanner does not know follows (`CommentMistaken`, `SpaceMistaken`); otherwise it
  is (`OnlyDirectivesBefore`).
- The inserted text contains U+2028 or U+2029 if the path does (`InsertBreaks`).
- The migrator carries over every key it does not recognize, except `__proto__`: assigning to it
  adds no key (`MeaningKept`).
- A migrated spec is still taken for an old one exactly if a service had both an action list
  and a state table (`StillOldIff`); migration is idempotent all the same.
- A declared path covers what is under it, except the root: of a declared `/` a policy entry can
  keep `/` itself and no narrower path, because the code looks for `//` (`RootCoversItself`);
  lib/fs-broker/namespace.js:12, which serves the grants, takes `/` to cover everything.
- The restart supervisor does not cancel a timer when a worker loads; the firing is ignored
  because the record is then running (`FiresOnlyWhenScheduled`).

## Model

| member | source | states |
|---|---|---|
| PeerEndInvariants.CallbackRunsOnce | lib/peer-channel.js:70-237 | over every mix of replies, late or unknown replies, timeouts and invalidation, a call's callback has run exactly once if the call left `pending` or the channel is closed, and never more than once |
| PeerEndInvariants.RequestsLeaveInOrder | lib/peer-channel.js:86-124 | in every run requests leave in increasing id order, `activeSends` never passes the cap, and the send queue is non-empty only at the cap |
| PeerEndInvariants.PendingIsSentOrQueued | lib/peer-channel.js:86-124 | in every run, whatever the peer sends, each pending call's own request has been sent or is in the send queue, and the queue holds only requests of pending calls, or of calls the peer has made up a reply to |
| PeerEndInvariants.AnswersTellWhy | lib/peer-channel.js:70-237 | in every run, an answer is PEER_GONE only on a closed channel, a timeout only of a timer that fired, and a reply only if one with its id came in |
| PeerEndInvariants.ClosedIsSilent | lib/peer-channel.js:70-237 | in every run, a closed end sends nothing, starts on nothing and stays closed; a call on it is answered PEER_GONE at once, and nothing else is |
| PeerEndInvariants.InvalidationInOrder | lib/peer-channel.js:215-237 | in every run, the invalidation of an open end answers PEER_GONE and nothing else, in the order of the calls |
| PeerLink.Conservation | lib/peer-channel.js:93-209 | while a port pair is open, the caller's `activeSends` is the invokes on the wire, the callee's queue, the callee's active dispatches and the replies on the wire, in every interleaving and in both directions |
| PeerLink.CallsWaitInQueue | lib/peer-channel.js:86-124 | in every run of two ends, each pending call has sent its request or has it in the send queue, and the queue holds nothing but requests of pending calls, a timed-out one having left, while as many as the cap are out |
| PeerLink.NoCalleeQueue | lib/peer-channel.js:135-149 | with a callee cap at least the caller's, the dispatch queue is empty in every run, whichever end has closed |
| PeerLink.CalleeQueueEmptyIffCapWithin | lib/peer-channel.js:135-191 | the dispatch queue is empty after every run, closed ends included, if and only if the callee's cap is at least the caller's |
| PeerLink.ServedInCallOrder | lib/peer-channel.js:101-191 | the callee serves requests in the order of the calls, each at most once and with its own call's arguments; send queue, wire and dispatch queue are one ordered queue |
| PeerLink.AnswersBelongToCalls | lib/peer-channel.js:193-209 | a reply given to call k is the callee's reply to the request that call k made |
| PeerLink.RepliedOnce | lib/peer-channel.js:151-181 | no request is replied to twice |
| PeerLink.NoHandlerRefuses | lib/peer-channel.js:135-149 | in every run, a callee without a handler serves nothing, and every reply it gives is PEER_NO_HANDLER |
| PeerChannels.PeerChannel.constructor | lib/peer-channel.js:16-61 | a new channel is open, idle and empty |
| PeerChannels.PeerChannel.Invoke | lib/peer-channel.js:70-99 | a closed channel answers PEER_GONE; otherwise the call gets the next id and is sent, or queued at the cap |
| PeerChannels.PeerChannel.SendInvoke | lib/peer-channel.js:101-114 | a send slot is taken and the request posted |
| PeerChannels.PeerChannel.OnTimer | lib/peer-channel.js:76-82 | a timed-out call is answered, forgotten and taken out of the send queue |
| PeerChannels.PeerChannel.DrainSendQueue | lib/peer-channel.js:118-124 | the oldest queued request goes out if the cap allows it |
| PeerChannels.PeerChannel.OnMessage | lib/peer-channel.js:126-133 | invokes and replies are handled, anything else is discarded |
| PeerChannels.PeerChannel.HandleInvoke | lib/peer-channel.js:135-149 | without a handler PEER_NO_HANDLER is replied; otherwise the request is served, or queued at the cap |
| PeerChannels.PeerChannel.ReplyTo | lib/peer-channel.js:167-180 | a served request frees its slot, is replied to, and the queue is drained |
| PeerChannels.PeerChannel.DrainDispatchQueue | lib/peer-channel.js:185-191 | the oldest queued request is served if the cap allows it |
| PeerChannels.PeerChannel.HandleReply | lib/peer-channel.js:193-209 | the slot is freed even for a reply nobody waits for; a pending call is answered with it |
| PeerChannels.PeerChannel.FailPending | lib/peer-channel.js:219-224 | every pending call is answered PEER_GONE, in id order |
| PeerChannels.PeerChannel.Invalidate | lib/peer-channel.js:215-237 | a second invalidation does nothing; the first answers all pending calls and drops both queues |
| PeerChannelBrokers.PeerChannelBroker.HandleRequest | lib/peer-channel-broker.js:76-125 | the three refusals, or one authorization asked for |
| PeerChannelBrokers.PeerChannelBroker.OnUserAuth | lib/peer-channel-broker.js:116-124 | an authorization answer becomes a denial or a grant |
| PeerChannelBrokers.PeerChannelBroker.GrantTo | lib/peer-channel-broker.js:127-150 | a known pair gets one more grant and an Allow, a new pair a port, an Open and a Grant, in that order |
| PeerChannelBrokers.PeerChannelBroker.SendAllow | lib/peer-channel-broker.js:138-141 | the Allow waits for its answer, or is denied at once if the callee has ended |
| PeerChannelBrokers.PeerChannelBroker.OnAllowReply | lib/peer-channel-broker.js:138-141 | the caller is granted the device once the callee has answered |
| PeerChannelBrokers.PeerChannelBroker.RecheckGrants | lib/peer-channel-broker.js:206-222 | a pass asks about every grant of every entry exactly once, and none starts while `recheckInFlight` is not zero, which is the number of answers still out |
| PeerChannelBrokers.PeerChannelBroker.OnRechecked | lib/peer-channel-broker.js:216-219 | one answer is counted off, and a denial closes the channel |
| PeerChannelBrokers.PeerChannelBroker.CloseRevoked | lib/peer-channel-broker.js:224-236 | only the entry that was rechecked is removed, and both parties are told |
| PeerChannelBrokers.PeerChannelBroker.InvalidateWorker | lib/peer-channel-broker.js:244-262 | every entry of the worker is removed and every other party told once per entry, whatever order the registry is gone through in |
| PeerRoutes.DeviceManagers.InvokeActionViaPeerChannel | lib/device-manager.js:244-268 | a live channel is used at once; otherwise the call waits, and only the first one sends a request |
| PeerRoutes.DeviceManagers.OnPeerChannelGrant | lib/device-manager.js:272-299 | the device is mapped, the port attached if there is no live channel, and the waiting calls flushed |
| PeerRoutes.DeviceManagers.AttachPort | lib/device-manager.js:276-296 | a port is attached exactly if one came and no live channel has the slot |
| PeerRoutes.DeviceManagers.OnPeerChannelDeny | lib/device-manager.js:303-306 | every call waiting for the device fails with the code of the denial |
| PeerRoutes.DeviceManagers.FlushPendingPeerInvokes | lib/device-manager.js:308-324 | the calls waiting for a device are sent, failed or answered PEER_GONE, in order, each once |
| PeerRoutes.DeviceManagers.SendAll | lib/device-manager.js:315-323 | queued calls go out on the channel in order |
| PeerRoutes.DeviceManagers.OnPeerChannelOpen | lib/device-manager.js:346-407 | the new callee end takes the slot and allows the one device |
| PeerRoutes.DeviceManagers.OnPeerChannelAllow | lib/device-manager.js:410-413 | a callee end in the slot allows one device more; anything else is left alone |
| PeerRoutes.DeviceManagers.OnPeerInvalidate | lib/device-manager.js:419-422 | the channel in the slot is closed and its slot freed |
| PeerResults.ServedOnlyIfAuthorized | lib/peer-channel-broker.js:116-150 | in every run, with crashes, reloads, both calling directions and forged invokes, each invoke served is for a device whose authorization had passed under the registry entry that opened that very channel |
| PeerResults.RevokedServesNothing | lib/peer-channel-broker.js:206-262 | in every run, a callee that has processed a channel's invalidation serves nothing more on it |
| PeerResults.RevocationReachesBoth | lib/peer-channel-broker.js:216-236 | in every run, a denied recheck removes exactly the entry it was for, and both workers are sent an invalidation, after everything sent to them before; if another entry has taken its place nothing changes |
| PeerResults.NeverToItself | lib/peer-channel-broker.js:99-109 | in every run, no worker is granted a channel to itself |
| PeerGrants.GrantsAreAuthorizations | lib/peer-channel-broker.js:127-150 | in every run, a grant is in an entry of the registry if and only if that authorization has passed for the port of the entry, between its two workers |
| PeerGrants.AuthorizedOnlyByAuth | lib/peer-channel-broker.js:76-125 | in every run, an authorization is logged only in a step in which `userAuth` answered without an error, for a device that the caller had called with that very key and that another worker, the callee, had hosted |
| PeerGrants.PassedIsGranted | lib/peer-channel-broker.js:116-150 | in every run, an authorization that passes is at once a grant of its pair's entry, logged for that port |
| PeerGrants.PassAsksAll | lib/peer-channel-broker.js:206-222 | in every run, a pass that starts while no answer is out asks about exactly the authorizations that have passed for the open channels, and while one is out no pass starts |
| PeerGrants.AllowedIsGranted | lib/peer-channel-broker.js:127-150 | in every run, a device that the callee's end of a registered channel allows, or will once it has handled what was sent to it, has a grant in that entry, so that a pass asks about it |
| PeerTold.AsksOnce | lib/peer-channel-broker.js:76-125 | in every run, a request asks for one authorization, with its own key and callee, if it is within the rate and for a device another worker hosts, or one that is missing for a reason to be told; any other asks for none |
| PeerTold.RefusedIff | lib/peer-channel-broker.js:76-141 | in every run, a worker is sent a denial if and only if one of the stated reasons holds in that step, with the code of that reason |
| PeerTold.GrantedIff | lib/peer-channel-broker.js:127-150 | in every run, a worker is sent a grant if and only if its authorization passes and no channel to the callee is open, with the new port, or the callee answers that it allows the device, without one |
| PeerTold.AdmittedIff | lib/peer-channel-broker.js:127-150 | in every run, a callee is sent an Open or an Allow if and only if an authorization for it passes, an Open exactly if no channel of the pair is open, an Allow on the port that is |
| PeerTold.InvalidatedIff | lib/peer-channel-broker.js:224-262 | in every run, a worker is sent an invalidation if and only if all channels of the other worker are taken down or a recheck of that very entry is denied, and their channel is in the registry |
| PeerTold.RemovedIff | lib/peer-channel-broker.js:206-262 | in every run, an entry is removed if and only if one of its workers has its channels taken down or a recheck of it is denied; a purge unmaps the devices of its worker and no others |
| PeerTold.RecheckCountsOff | lib/peer-channel-broker.js:216-219 | in every run, the answer to a recheck is counted off, and nothing else changes unless it is a denial |
| PeerTold.DenialFailsAll | lib/device-manager.js:303-324 | in every run, a denial fails every call that waits for the device, in order, with its code |
| PeerTold.InvalidateFreesSlot | lib/device-manager.js:419-422 | in every run, a worker that has handled an invalidation has closed its channel with that worker and freed the slot, and no other |
| PeerResults.WaitingIffOneOutstanding | lib/device-manager.js:262-268 | in every run, calls wait for a device exactly while one request for it is outstanding, rate-limited requests included |
| PeerResults.NoCallStranded | lib/worker-message.js:272-275 | in every run, no call is left waiting once nothing is in flight |
| PeerResults.EveryCallInOnePlace | lib/device-manager.js:244-324 | in every run, each call ever made is in exactly one place: waiting, or settled by exactly one event (released once, failed once, or gone once) |
| PeerResults.NeverRefused | lib/device-manager.js:346-413 | in every run without invalidation and with one calling direction per pair, no call is refused PEER_NOT_GRANTED, misdirected or lost |
| PeerResults.ReleasedOnlyWhenAdmitted | lib/peer-channel-broker.js:127-150 | in such a run, every invoke on a wire is for a device its callee allows, or will when it attaches the port |
| PeerResults.GrantReleasesAll | lib/device-manager.js:272-324 | in such a run, handling a grant releases every call waiting for the device, in order, on the channel of the pair |
| PeerTwoWay.MisdirectedIffServing | lib/device-manager.js:244-324 | in every run, a call is misdirected if and only if some step sent a call, on the fast path or for a grant, while its worker's slot held an open callee end |
| PeerTwoWay.GrantMisdirectsIffServing | lib/device-manager.js:278-299 | handling a grant sends calls to an end without a handler if and only if calls wait and the slot holds a callee end |
| PeerTwoWay.CallMisdirectsIffServing | lib/device-manager.js:244-254 | a call itself is misdirected if and only if the slot of the worker its device is mapped to holds an open callee end |
| PeerTwoWay.TwoWayRunMisdirects | lib/device-manager.js:406 | a run in which two workers call each other and an authorized call is misdirected |
| PeerTwoWay.FastPathRunMisdirects | lib/device-manager.js:244-254 | the same run, one call on: misdirected on the fast path, with nothing waiting |
| PeerReopened.RefusedIffUnallowed | lib/device-manager.js:362-365 | in every run, a call is refused if and only if some step gives a callee an invoke for a device its channel does not allow |
| PeerReopened.UngrantedIsRefused | lib/device-manager.js:352-365 | in every run, an invoke for a device that was never granted on the very port it is on, forged or granted on an earlier port only, is refused when its turn comes |
| PeerReopened.FastCallRefusedIff | lib/device-manager.js:244-254 | a call on the fast path that is next on its port is refused if and only if the callee's end does not allow its device |
| PeerReopened.ReopenedRunRefuses | lib/device-manager.js:287-293 | a run in which an authorized device is called, its channel closed, another opened for a second device, and its next call refused |
| HopBilling.ChargedOnceToOwnKey | lib/device-manager.js:362-398 | in every run over one shared port, each metering request is for one call of the caller's, at the key that call was made with or else the granted identity, and no call has two |
| HopBilling.ChargedIffEarned | lib/device-manager.js:362-398 | in every run, a call, however answered, is metered if and only if its request was served, its action succeeded and there was a key, and with what the action returned |
| HopBilling.RepliesAsCalledFor | lib/device-manager.js:362-398 | in every run, the callee replies to a request exactly what its action and the main thread's answer call for: the error and data of a failed action, HOP_IDENTITY_UNRESOLVED without a key, RATE_LIMITED alone if the metering was refused, else the action's output with the metering result, whatever other metering error there was; while it is open, it has replied if and only if those callbacks are in |
| HopBilling.AnswersMatchCharges | lib/peer-channel.js:70-247 | in every run, for every answer: one that came from the callee is what the callbacks of the call's own request call for; a success was metered and carries the action's output unchanged; for a failure replied, a metering request was made if and only if the main thread answered it RATE_LIMITED; for a timeout or PEER_GONE, if and only if the action succeeded and there was a key |
| HopBilling.TimedOutAndCharged | lib/peer-channel.js:76-82 | a run that ends with a call that timed out and is metered |
| RoutedBilling.ChargedOnceToOwnKey | lib/device-manager.js:626-664 | on the routed path each charge is for one hop that was hosted and authorized without an error, at the key and tool of that hop's own message, and no hop has two |
| RoutedBilling.ChargedIffEarned | lib/device-manager.js:629-664 | in every run, a hop, answered or not, is charged if and only if its callee succeeded and there is a key to charge |
| RoutedBilling.AnsweredAsCalledFor | lib/device-manager.js:582-664 | in every run, a hop has been answered if and only if what came back for it calls for an answer, and with that answer; it is at its callee exactly while it was hosted, authorized without an error and has not come back, and being metered exactly while its callee succeeded, there is a key and `recordCall` has not answered |
| RoutedBilling.RefusedNeverServed | lib/device-manager.js:586-629 | in every run, a hop whose authorization was refused is answered with exactly that error, one for a device nobody hosts with what is said of that device; neither is ever served or charged |
| RoutedBilling.AnswersMatchCharges | lib/session.js:242-250 | in every run, a hop that succeeded was charged and answered with the callee's output; one answered with an error was charged if and only if its timer expired first and its callee succeeded all the same, with a key |
| RoutedBilling.FailedAndCharged | lib/device-manager.js:629-664 | a run that ends with a hop that failed and is charged |
| CtxClients.InvokesKeepIdentities | lib/handler-ctx.js:130-154 | in every run with any number of callers sharing cached clients, an invoke whose cache key nothing else asked for has goes to its own target, authorized as the identity its handler asked for, and is billed to its own caller, or to that identity if the caller has no key |
| CtxClients.EveryAskIsAnswered | lib/handler-ctx.js:130-154 | in every run, the clients asked for are, with their callers, exactly the handles given, the creations under way and those that failed |
| CtxClients.CreatedOnce | lib/handler-ctx.js:138-153 | in every run, a client that was created is kept for its key, and none is created for a key that has one |
| CtxClients.AloneIf | lib/handler-ctx.js:138 | nothing else has the key of a target without separators, nor, in a run whose device and service IDs all have none, of any |
| CtxClients.MisdirectsIffSeparator | lib/handler-ctx.js:138-143 | some run sends an invoke for a target to another one's client if and only if the target's device ID, service ID or identity holds the separator |
| CtxClients.KeyOwnedIff | lib/handler-ctx.js:138 | no other target has a target's cache key if and only if the target holds no separator |
| BillingPath.DirectHopPaidByCaller | lib/peer-channel.js:84-114 | over every run of a device's handlers and every run of a channel, a hop that carries an invoke is charged to that invoke's caller, or to the identity it acts as, never to the identity the channel was granted to |
| BillingPath.RoutedHopPaidByCaller | lib/device-manager.js:626-664 | the same over every run of hops through the main thread |
| CtxClients.CtxDevice.ServiceClient | lib/handler-ctx.js:138-154 | a cached client is wrapped for the caller; otherwise one is created for it |
| CtxClients.CtxDevice.OnCreated | lib/handler-ctx.js:150-153 | the new client is cached and wrapped, or the error passed on |
| CtxClients.CollisionMisdirects | lib/handler-ctx.js:138-143 | for any two targets with one key, a run that sends the second one's invoke to the first one's client |
| WorkerRequests.AnsweredExactlyOnce | lib/worker-message.js:194-262 | in every run, each request with a callback is answered at most once, is unanswered exactly while it waits, and has been answered exactly once after the exit, requests sent from inside the callbacks that the exit runs included |
| WorkerRequests.ExitReason | lib/worker-message.js:194-202 | every answer the exit gives, however deeply nested, carries the reason of the exit |
| WorkerRequests.ExitInOrder | lib/worker-message.js:194-202 | the exit answers the pending requests in the order they were sent, each with all that its callback leads to before the next |
| WorkerRequests.LiveCodeSends | lib/worker-message.js:205-262 | code that runs while the worker lives, a reply's callback included, sends all its messages; its requests wait under new ids, in order, each with its own callback; a reply is given to its own request, which is forgotten after |
| WorkerRequests.EndedCodeAnswered | lib/worker-message.js:194-211 | the exit, and code that runs after it, run every callback to its end at any depth: each request sent is answered at once and nothing is posted |
| WorkerRequests.LateReplyIgnored | lib/worker-message.js:244-262 | a second reply to a request, at any later time, changes nothing |
| WorkerRequests.AnsweredTwiceIffCallbackEnds | lib/worker-message.js:245-261 | a request is answered twice by its reply if and only if its callback ends the worker |
| WorkerMessages.WorkerMessage.SendMessageToWorker | lib/worker-message.js:205-225 | a live worker gets the request under a new id; for an ended one the callback runs at once |
| WorkerMessages.WorkerMessage.EndWith | lib/worker-message.js:194-202 | the first end answers everything pending in id order, running each callback to its end; a second does nothing |
| WorkerMessages.WorkerMessage.OnReply | lib/worker-message.js:244-262 | a known request's callback runs and is then forgotten; an unknown id is ignored |
| WorkerMessages.WorkerMessage.OnChildMessage | lib/worker-message.js:263-280 | a counted message passes exactly if the bucket admits it; a refused channel request is denied, others are told they were limited; exempt messages never touch the bucket |
| TokenBucket.RateBound | lib/worker-message.js:264-279 | for every history, at most rate + rate*(t2-t1)/1000 counted messages are admitted in [t1, t2] |
| TokenBucket.SpacedNeverRefused | lib/worker-message.js:264-279 | a sender that keeps 1000/rate ms between messages is never refused after its first admission |
| TokenBucket.BurstAdmitted | lib/module-manager.js:908-911 | a full bucket admits a burst of `rate` messages, so the bound is reached |
| TokenBucket.AdmittedIff | lib/worker-message.js:264-279 | a bucket that starts full admits a message if and only if no interval ending with it would then hold more than the bound allows |
| Heartbeat.KilledOnlyIfBlocked | lib/worker-limits.js:29-40 | a worker is killed as blocked only if one ping went unanswered for more than maxBlockMs through ticks none of which was late or busy |
| Heartbeat.BlockCaught | lib/worker-limits.js:29-40 | with tick gaps of at most 2 intervals and never busy, a worker that stops answering at t is killed by t + maxBlockMs + 4 intervals unless it exited or the watch was stopped before, and as blocked if its memory stayed within the limit |
| Heartbeat.TwoTicksIff | lib/worker-limits.js:9-12 | the default interval gives two ticks per maxBlockMs if and only if that is at least 100 ms, and lies between 50 and 1000 ms |
| Heartbeat.MemoryKilledIff | lib/worker-limits.js:45-47 | in every run, a watched worker is killed for its memory if and only if a reading is over the limit, and one that exited or is stopped is never killed |
| Heartbeat.PingsIff | lib/worker-limits.js:29-44 | in every run, a tick pings the worker if and only if it is watched and has answered its last ping, under a new id |
| Heartbeat.AnsweredIff | lib/worker-limits.js:43 | in every run, the ping waited for is answered if and only if the reply to that very ping comes |
| Heartbeat.Watcher.OnTimer | lib/worker-limits.js:29-44 | one tick: a ping is sent, its clock restarted, the worker killed, or nothing |
| Heartbeat.Watcher.OnHeapStatistics | lib/worker-limits.js:45-47 | a reading over the limit kills the worker, for that reason |
| Heartbeat.Watcher.StopWatching | lib/worker-limits.js:51-52 | nothing is killed after the exit or the stop |
| Heartbeat.Watcher.OnPong | lib/worker-limits.js:43 | a reply clears the ping it belongs to and no other |
| LifecycleResults.SectionsInTurn | lib/module-lifecycle.js:12-19 | in every run, lock sections of a name never overlap, and one begins only after all that arrived before it are over |
| LifecycleResults.LockNeverLost | lib/module-lifecycle.js:12-19 | in every run, a queued section whose predecessors are over can begin, or the reaction of the section before it, of the same name, can run |
| LifecycleResults.OneWorkerPerName | lib/module-manager.js:925-947 | in every run, at most one worker of a name is unsettled, so at most one has not exited |
| LifecycleResults.ActsOnlyWhenSettled | lib/module-manager.js:579-608 | in every run, a worker starts and an uninstall deletes only when every earlier worker of the name has exited and settled |
| LifecycleResults.LiveWorkerWins | lib/module-manager.js:925-930 | in every run, a section that begins while a worker of its name has not exited is refused if an uninstall, gives way if a restart, and ends that worker first if a load |
| LifecycleResults.BeginDecides | lib/module-manager.js:571-583 | in every run, an uninstall ends when its turn comes if and only if a supervisor record, a loaded module or a live worker has the name; a restart if and only if a worker is live; a load never, and it ends a live worker first; any other section goes on to wait for the last worker to settle |
| LifecycleResults.HeldNameNeverUninstalled | lib/module-manager.js:579-608 | an uninstall that begins while a record, restarting or suspended ones included, a module or a live worker has the name never deletes anything, however the run goes on |
| LifecycleResults.HeldChanges | lib/module-manager.js:184-199 | in every run, a name gets or loses its module or its record in no step but the load, unload, record and clear steps of that name |
| LifecycleResults.SectionsAdvance | lib/module-manager.js:925-947 | in every run, a section that has begun can go one phase on as soon as the workers of its name have exited, or settled if it waits for that |
| LifecycleResults.StartedWorkerIsTracked | lib/module-manager.js:778-786 | in every run, a worker that starts is its name's entry and its only unsettled worker, and its section is over |
| LifecycleResults.ForgottenByLast | lib/module-lifecycle.js:17 | in every run, the reaction to a section's tail forgets the chain if and only if no section of the name has arrived since |
| LifecycleResults.SettledIsUntracked | lib/module-lifecycle.js:25 | in every run, the reaction to a worker's settling takes away its own entry and no other |
| LifecycleResults.SupersededNeverRegisters | lib/module-manager.js:902-905 | in every run, a loaded worker is registered under its name if and only if it is no supervised restart whose record is not the current one, and never if that record was cleared after the restart was asked for |
| ModuleLifecycles.ModuleLifecycle.Run | lib/module-lifecycle.js:12-19 | a new section waits for the tail of the last one of its name |
| ModuleLifecycles.ModuleLifecycle.OnTail | lib/module-lifecycle.js:17 | the chain is forgotten only by its last section |
| ModuleLifecycles.ModuleLifecycle.Track | lib/module-lifecycle.js:21-26 | the new worker becomes the entry of its name |
| ModuleLifecycles.ModuleLifecycle.OnExited | lib/module-lifecycle.js:24 | the worker is known to have exited |
| ModuleLifecycles.ModuleLifecycle.OnSettled | lib/module-lifecycle.js:25 | an entry is removed only if it is still the one that settled |
| ModuleLifecycles.ModuleLifecycle.LiveEntry | lib/module-lifecycle.js:30-33 | the tracked worker that is not known to have exited |
| RwLocks.WriterAlone | lib/fs-broker/rwlock.js:4-33 | in every run, two tickets held together are both shared |
| RwLocks.GrantsInArrivalOrder | lib/fs-broker/rwlock.js:11-33 | in every run, the tickets granted are a prefix of arrival order and the rest wait in order |
| RwLocks.WaitsOnlyForHolders | lib/fs-broker/rwlock.js:18-33 | in every run, a waiting ticket is, or is behind, one that cannot be held together with an earlier one still held: once those release it is granted, and readers are granted together |
| RwLocks.RwLock.Acquire | lib/fs-broker/rwlock.js:11-16 | a ticket is queued and the queue pumped |
| RwLocks.RwLock.Release | lib/fs-broker/rwlock.js:18-21 | a holder lets go and the queue is pumped |
| RwLocks.RwLock.Pump | lib/fs-broker/rwlock.js:23-32 | the loop ends and has granted from the head as long as the head was free |
| Supervisor.RestartBudget | lib/module-supervisor.js:45-72 | in every run, of three exits of one record within ten minutes the last schedules no restart |
| Supervisor.RestartDelays | lib/module-supervisor.js:24-26 | in every run, every restart is scheduled 1000 or 2000 ms ahead |
| Supervisor.FiresOnlyWhenScheduled | lib/module-supervisor.js:62-102 | in every run, a restart fires only when due, for the record's last exit, with no clear, load, suspension or earlier firing since, and never for a cleared record |
| Supervisor.RestartUnlessThird | lib/module-supervisor.js:45-72 | in every run, an exit schedules a restart if and only if it is the first or second of its record within ten minutes, 1000 or 2000 ms ahead, and suspends the module otherwise |
| Supervisor.FiresIff | lib/module-supervisor.js:67-70 | in every run, a timer restarts the module if and only if the last thing that happened to its record is an exit that scheduled a restart which is due |
| Supervisor.StateAsSaid | lib/module-supervisor.js:36-102 | in every run, a record is running, restarting or suspended as the last load, exit or suspension says, and names the restart that was then scheduled |
| Supervisor.RecordedIff | lib/module-supervisor.js:28-79 | in every run, a name has a record if and only if it was loaded or exited since it was last cleared, and keeps that one record until it is cleared |
| ModuleSupervisors.ModuleSupervisor.Exited | lib/module-supervisor.js:45-72 | one exit is recorded and a restart scheduled, or the module suspended |
| ModuleSupervisors.ModuleSupervisor.RecentExits | lib/module-supervisor.js:48 | exits older than the window are dropped, in order |
| ModuleSupervisors.ModuleSupervisor.Track | lib/module-supervisor.js:36-43 | the record is running again |
| ModuleSupervisors.ModuleSupervisor.Clear | lib/module-supervisor.js:74-79 | the record is forgotten and its timer cancelled |
| ModuleSupervisors.ModuleSupervisor.Suspend | lib/module-supervisor.js:91-102 | a known record is suspended and its timer cancelled |
| ModuleSupervisors.ModuleSupervisor.OnTimer | lib/module-supervisor.js:67-70 | the restart callback is called exactly if the record is restarting |
| Composition.CallsBackOnce | lib/device-manager.js:961-1012 | for any order of answers, the verification calls back at most once, exactly once when all are in, and succeeds if and only if every declared address was granted, with exactly those addresses; a failure gives the reason of a refused one |
| Composition.ReadyOnceAllDelivered | lib/device-manager.js:758-763 | in every run, a pass has logged the ready line exactly once if all its verdicts are delivered, and not at all before |
| Composition.OnlyFirstPassRemoves | lib/device-manager.js:786-817 | in every run, the devices taken away by verdicts are exactly those whose check of the first pass called back with an error; no re-verification pass removes a device |
| Composition.GoneIff | lib/device-manager.js:786-817 | in every run, a step takes a device out of the device map if and only if its module is unloaded or its check of the first pass calls back with an error |
| Composition.BoundAsChecked | lib/device-manager.js:790-848 | in every run, what a device may call changes only when a verdict about it is delivered, to what that very check called back with, and to nothing if that was an error |
| Composition.DeliveredIff | lib/device-manager.js:779-848 | in every run, a verdict is delivered if and only if the check calls back, or, if it has to be told to the device's worker, when that answers, well or not |
| Composition.PassChecksAll | lib/device-manager.js:758-766 | in every run, a pass checks exactly the devices that are online when it starts, each until its check calls back |
| Composition.CompositionJoin.OnAnswer | lib/device-manager.js:965-1011 | one answer is joined to the others |
| Composition.DiscoveryPass.VerdictDelivered | lib/device-manager.js:759-762 | one verdict is counted off, and the last logs the ready line |
| SourceScanner.SkipSpaceAndComments | lib/single-thread-facade.js:196-212 | what is skipped is whole pieces of white space and comments, as far as they go, and the flag says whether a line ends in them |
| SourceScanner.StringEnd | lib/single-thread-facade.js:214-222 | the end of the literal if one closes on its line, and it is the only one; -1 exactly if there is none |
| SourceModes.SkippedIsPieces | lib/single-thread-facade.js:196-212 | the text skipped is its pieces: white space, and whole comments of which only the last can lack its end |
| SourceTokens.SameTokenIff | lib/single-thread-facade.js:196-212 | where nothing is misread, the scanner finds ECMAScript's next token if and only if no space or comment it does not know stands there |
| SourceTokens.LiteralFoundIff | lib/single-thread-facade.js:214-222 | a string literal of ECMAScript is found if and only if it holds no escaped CR LF |
| SourcePrefix.LiteralIsString | lib/single-thread-facade.js:214-222 | what a directive holds is a complete string literal |
| SourcePrefix.PrefixPlace | lib/single-thread-facade.js:233-250 | only directives and trivia come before the place, and none the scanner takes for a directive starts there |
| SourcePrefix.OnlyDirectivesBefore | lib/single-thread-facade.js:233-250 | every directive before the place, if nothing up to the token after it is misread, is one by ECMAScript's rules: the next token after the directive before it, a complete literal and a statement of its own |
| SourcePrefix.LeftBehindOnlyFor | lib/single-thread-facade.js:233-250 | a directive of ECMAScript is left behind the place only for one of the stated reasons, and none is behind the last directive the prefix follows at once |
| SourcePrefix.DirectiveTakenIff | lib/single-thread-facade.js:239-249 | a directive of ECMAScript whose next token the scanner finds is one for the scanner if and only if it holds no escaped CR LF and the scanner is not unsure of it |
| SourcePrefix.DirectiveTestIff | lib/single-thread-facade.js:242-249 | where the scanner finds the next token, it takes a literal for a directive if and only if it is a statement of its own by ECMAScript's rules and none of the unsure cases holds |
| SourcePrefix.LoneTokenDemotes | lib/single-thread-facade.js:246-249 | before any lone `!`, `++`, `--` or number after a period on a new line, the prefix is put in front of a directive |
| SourcePrefix.LoneTokens | lib/single-thread-facade.js:246-249 | four such sources |
| SourcePrefix.CommentMistaken | lib/single-thread-facade.js:202 | a literal taken for a directive that ECMAScript reads on from |
| SourcePrefix.SpaceMistaken | lib/single-thread-facade.js:200 | the same with a space the scanner does not know |
| SourcePrefix.PrefixSource | lib/single-thread-facade.js:224-252 | the output is the source with one insertion at that place, after a byte order mark and a hashbang line; in the output the insertion starts in code, except after a comment nothing ends, at the end of the source; and every character of the source keeps its line |
| SourcePrefix.InsideCommentIff | lib/single-thread-facade.js:224-252 | the place is inside no string, and inside a comment if and only if the source ends there and the trivia before it ends in a line comment or an unclosed one |
| SourcePrefix.StartsInCodeIff | lib/single-thread-facade.js:224-252 | in the output the prefix starts in code if and only if that is not so |
| SourcePrefix.HeaderAgreesIff | lib/single-thread-facade.js:226-232 | the scanner starts the code where ECMAScript does if and only if the hashbang line holds no other line end before its line feed, but for the carriage return of a CR LF |
| SourcePrefix.EcmaScriptAgreesIff | lib/single-thread-facade.js:196-232 | from the start of the source up to the place the scanners read it as ECMAScript does if and only if the header is not misread and no carriage return, U+2028 or U+2029 is; then the place is in no string, and in a comment in the same case, by its rules |
| SourcePrefix.CarriageReturnMisplaces | lib/single-thread-facade.js:202 | a source whose place is inside a comment by ECMAScript's rules |
| SourcePrefix.HashbangMisplaces | lib/single-thread-facade.js:228-231 | a source whose hashbang line is misread, and whose place is inside a comment |
| SourcePrefix.HashbangUnprefixed | lib/single-thread-facade.js:229-230 | a source with code after its hashbang line that gets no prefix |
| SourcePrefix.InsertBreaks | lib/single-thread-facade.js:225 | the inserted text never has a line feed or carriage return, and has another line end exactly if the path does |
| SourcePrefix.TrailingCommentSwallows | lib/single-thread-facade.js:202 | a prefix put after any source that ends in a line comment is part of that comment from beginning to end |
| HandlerMap.ShortNameAfterLast | lib/handler-map.js:33-37 | the short name is what follows the last separator |
| HandlerMap.BuildServiceIndex | lib/handler-map.js:42-53 | every service is listed once under its short name, and nothing else is |
| HandlerMap.ValidateHandlerMap | lib/handler-map.js:115-185 | the problems are exactly the defects of the map: all of them and nothing else |
| HandlerMap.SoundAndComplete | lib/handler-map.js:115-185 | no defect is reported and none hidden by an inherited name if and only if short names correspond one to one to services and handlers to declared actions |
| HandlerMap.NothingHidden | lib/handler-map.js:163-181 | nothing is hidden if no declared name is one that the map, or an object of its services, inherits |
| HandlerMap.InheritedNamePasses | lib/handler-map.js:175 | an action named toString passes without a handler |
| HandlerMap.Device.Assemble | lib/handler-map-module.js:70-80 | after a match, assembly is total, logs no error, and leaves every declared action with its own handler |
| HandlerMap.Device.SetAction | lib/countinghouse-device.js:46-61 | a declared action gets its handler; anything else only logs |
| Permissions.WildcardIsOneLabel | lib/module-permissions.js:103-109 | a wildcard pattern matches exactly the hosts with one label more |
| Permissions.UnderIff | lib/module-permissions.js:128 | a path is within a declared one if and only if it is that path or continues it after a slash |
| Permissions.RootCoversItself | lib/module-permissions.js:115-128 | of the absolute, normalized paths a policy may name, only `/` is within a declared `/` |
| Permissions.FsOnlyNarrows | lib/module-permissions.js:124-134 | for every declaration, policy entry and mode, any path and access the result allows the declaration allows |
| Permissions.NetOnlyNarrows | lib/module-permissions.js:136-150 | any host and port the result allows the declaration allows |
| Permissions.FsGrantedIff | lib/module-permissions.js:113-200 | a path and access are allowed if and only if the declaration allows them and is approved as it is (or there is no entry and the policy is not enforced), or a well-formed grant of the entry covers them and one grant of the declaration covers all that this grant covers |
| Permissions.NetGrantedIff | lib/module-permissions.js:136-200 | the same of a host and port |
| Permissions.ApprovedIff | lib/module-permissions.js:164-200 | a module is approved if and only if it has an entry or declares nothing that needs one |
| Permissions.EnvOnlyDeclared | lib/module-permissions.js:202-209 | a variable is passed on if and only if it is declared, the entry lists it or approves the declaration (or there is none and the policy is not enforced), and it has a value: the policy's if it gives one and else the server's |
| Permissions.LimitIsLeast | lib/module-permissions.js:152-162 | every limit is the least of the request, the entry's limit and the ceiling or default |
| Permissions.EnforceWithinAudit | lib/module-permissions.js:164-200 | what enforcing allows, auditing allows |
| Permissions.NarrowFs | lib/module-permissions.js:124-134 | the entries kept are those within the declaration, in order, and the rest are counted as ignored |
| Permissions.NarrowNet | lib/module-permissions.js:136-150 | the same for hosts |
| Permissions.NarrowEnv | lib/module-permissions.js:181-184 | the declared names' values are kept, and the undeclared names counted as ignored |
| Permissions.NarrowDeclaration | lib/module-permissions.js:164-200 | the loops together compute the narrowing the results are about, and count everything they ignore |
| SpecMigration.MeaningKept | bin/countinghouse-migrate-spec.js:67-118 | services and actions keep order and number; of each action exactly the keys outside the two lists are kept, with their values, and a description and fault that are not null; it gets the pointers its arguments led to, unless it had such a key of its own |
| SpecMigration.Idempotent | bin/countinghouse-migrate-spec.js:92-118 | whenever it succeeds, migrating again changes nothing |
| SpecMigration.StillOldIff | bin/countinghouse-migrate-spec.js:35-43 | the result is still taken for old exactly if a service had both an action list and a state table |
| SpecMigration.SucceedsIff | bin/countinghouse-migrate-spec.js:47-65 | it fails exactly if some old action is null or has an argument that leads to no schema pointer |
| SpecMigration.ConvertSpec | bin/countinghouse-migrate-spec.js:92-118 | the loops compute the migration the results are about |
| SpecMigration.ConvertService | bin/countinghouse-migrate-spec.js:101-115 | one service is converted, or left alone if its actions are a list already |
| SpecMigration.ConvertAction | bin/countinghouse-migrate-spec.js:67-88 | the loop over an action's keys computes the migrated action the results are about |

## Left out

- grantKey: a grant is the pair of key and device; two pairs whose texts joined by U+0000 coincide are not merged.
- PeerRoutes.DeviceManagers.OnPeerInvalidate: the history event of a processed invalidation is added by `PeerBrokering.WorkerHandles`, not by the method.
- PeerChannelBrokers.PeerChannelBroker.InvalidateWorker: states the messages without the port kept for the record, because the registry's order decides which of two equal messages comes first.
- The per-call objects of `peerChannels` are records in one sequence, and the managers of all workers one object; aliasing between channel objects is by index.
- HopBilling and RoutedBilling: the closures of each hop are stages of a value, not objects.
- The HTTP path of a service client; the code of an error that a routed hop's timer answers with, which does not reach the caller.
- SourcePrefix.PrefixSource: `path.posix.dirname` is a parameter.
- SourcePrefix.EndsStatement: its verdict means nothing for a source that is no program (an unclosed comment, a token that can begin no statement, a character beyond ASCII that is no part of an identifier).
- HandlerMap.ValidateHandlerMap: message texts are not modelled.
- Permissions.NarrowDeclaration: case folding is ASCII only; `parseDeclaration` and its messages are not part of this model.
- SpecMigration.ConvertSpec: a service that is not an object is not part of this model; integer-like keys, which JavaScript moves to the front, are not reordered.
- Lifecycle: the texts of errors; an uninstall refused before the lock is taken is no step; a broker is something that settles after its worker has exited.
- Composition: `parseAddress`, `resolveAddress` and the identity lookup are part of the answer for an address.
- lib/module-lockdown.js, lib/hardened-launch.js, lib/hardened-realpaths.js: their meaning lies in Node itself.
- lib/job-control.js, lib/redis-api.js, lib/device-db.js, lib/auth, lib/couchdb-adapter, lib/metering: thin layers over other systems; here they are answers that arrive once.
- lib/route-manager.js, lib/session.js except its timer, lib/countinghouse-util.js, lib/cli-options.js, lib/validator.js, lib/service.js: plumbing, options and foreign schema validation.
- The rest of lib/fs-broker (quota, scheduler, namespace), bin/countinghouse-migrate-module.js, benchmarks and examples.
