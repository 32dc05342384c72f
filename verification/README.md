# pour: a verified model of the faucet's core

pour is a faucet for many Cosmos chains. A request passes a gate (rate limits, signatures,
proof of work, API keys), waits in a batch window, is broadcast by one of several
distributor accounts, and is paid as part of one transaction or of its own. Chain data
comes from a live registry, filtered by an update policy and by the operator's overrides.
This project models the parts of that path whose correctness depends on long histories,
bit-level arithmetic or shared memory, and proves what they promise.

| file | part of pour |
|---|---|
| `Bech32Checksum.dfy`, `Bech32Regroup.dfy`, `Bech32.dfy`, `Bech32Spelling.dfy` | the address codec: the BCH register over GF(2), the regrouping of 8-bit and 5-bit words, encoding and decoding, and the spelling of an address character by character |
| `Registry.dfy` | the chain registry store as a state machine over values: live updates, policy, pending changes, reload |
| `RegistryStore.dfy` | the same store over the heap, with published pointers and shared fee-token arrays |
| `Window.dfy`, `Pool.dfy`, `Flush.dfy`, `Pipeline.dfy` | batch windows, least-loaded routing, the flush callback with multi-send, split, ledger and circuit breaker, and the runs of all three together |
| `RateLimit.dfy`, `Gate.dfy`, `GateRules.dfy` | rolling-window limits over per-second rows, the admission gate on top, and its decisions stated on the request and the log |
| `Send.dfy`, `SendRules.dfy` | sequence retries around endpoint failover, gRPC before REST, and the answers of a send stated on what it tried |
| `GasCache.dfy` | the moving averages of gas, the trusted gas limit, the decay of gas prices |
| `MsgBank.dfy`, `Der.dfy` | the totals of a multi-send message, and the DER form of a compact signature |
| `Options.dfy` | a value that may be missing, used throughout |

Code that updates state in place is a class or an array method; its `ensures` ties it to a
function on values, and the theorems are about those functions, over every run; a ghost
history in the object, tied to it by `Valid()`, makes them theorems about the object. Code
that only computes is a function. Randomness, clocks, the network, the signature library and
the proof-of-work verifier are parameters: an oracle answers in the order in which it is
asked.

## Where the code and its comments differ

The model follows the code. In each case the property that the comment suggests is proved
under the exact condition under which it holds.

- `internal/batch/window.go:70-72` flushes once at cancellation. Nothing is left behind if
  and only if one batch was enough (`Window.CancelDrainsIff`, `Window.LeftBehind`); two requests
  and batches of one leave one behind (`Window.ShutdownLeaves`).
- `internal/abuse/ratelimit/ratelimit.go:68` and `:84` test an inclusive window, so that a
  caller is still refused at the reported retry time and is let in from one second later
  on (`RateLimit.RetryTimeExact`, `RateLimit.RefusedWhenTold`). The query for the oldest row
  fails if and only if the limit is not positive and the window holds no row
  (`RateLimit.ScanErrorIff`).
- `internal/abuse/ratelimit/ratelimit.go:150-160` reports when the oldest second expires. A
  caller refused by the coin cap gets in a second later if and only if what expires covers
  the excess (`RateLimit.CapRetryIff`, `RateLimit.CapRefusedWhenTold`).
- `internal/tx/msg_bank.go:44-55` adds in int64. The message spends what it pays out if and
  only if every total fits (`MsgBank.BuildMsgMultiSend`, `MsgBank.OverflowUnbalances`).
- `internal/tx/rest.go:24` trims slashes, `internal/tx/endpoint.go:46` compares the untrimmed
  URL, and `internal/tx/endpoint.go:21` keeps repeated URLs although marking stops at the
  first. A REST endpoint is marked after a switch to it if and only if its URL has no
  trailing slash and is not listed before it (`Send.MarkReachesIff`). The number of switches
  is bounded by the number of endpoints, over every network and session, if and only if no
  URL is repeated in a pool and no REST URL ends in a slash (`Send.SwitchBoundIff`);
  otherwise, with everything down, every send switches twice, without end (`Send.NeverLeft`).
- `pkg/chainregistry/types.go:111-114` calls published values immutable. Over every run no
  chain info ever handed out for a registry chain changes (`RegistryStore.Store.Perform`). A
  reload changes what a chain info shows, whether it is still published or not, if and only
  if the info holds the token array of a standalone chain and the overrides change a price
  there (`RegistryStore.Store.SetOverrides`); the price then survives the override
  (`Registry.ReloadRevertsIff`, `Registry.OverrideSticks`).
- `pkg/chainregistry/store.go:208-238` applies frozen fields at a reload without acceptance
  and leaves the queue as it was, so that the store is consistent afterwards if and only if
  nothing was pending (`Registry.ReloadAppliesAll`, `Registry.AcceptAfterReload`,
  `Registry.ReloadGoesWrong`).
- `batch.Pool.MarkHealthy` has no caller outside tests, so that every failed flush takes a
  distributor out of service for good (`Flush.DistributorsOnlyLeave`).

## Model

| member | source | states |
|---|---|---|
| `Bech32Checksum.FeedSymbol` | internal/tx/internal/keys/derive.go:154-161 | the bit-by-bit mixing of generator words is one linear step of the register |
| `Bech32Checksum.StepInjective` | internal/tx/internal/keys/derive.go:152-164 | no two 30-bit registers step to the same one under the same symbol |
| `Bech32Checksum.StepOverlay` | internal/tx/internal/keys/derive.go:152-164 | a symbol fed into the register is the zero symbol's step with the symbol laid over it |
| `Bech32Checksum.RunInjective` | internal/tx/internal/keys/derive.go:152-164 | equal symbol strings never merge two different registers |
| `Bech32Checksum.BurstSeparates` | internal/tx/internal/keys/derive.go:152-164 | different strings of up to six symbols, followed by anything equal, never reach the same register |
| `Bech32Checksum.ClosesIff` | internal/tx/internal/keys/derive.go:175-184 | six symbols bring the register to 1 if and only if they are the computed checksum |
| `Bech32Checksum.TestVectorCloses` | internal/tx/internal/keys/derive.go:150-164 | the generator words close the register on the first valid test vector of BIP 173 |
| `Bech32Regroup.WrapHarmless` | internal/tx/internal/keys/derive.go:203-210 | shifting the never-masked 64-bit accumulator loses none of the bits still to be emitted |
| `Bech32Regroup.ConvertBits` | internal/tx/internal/keys/derive.go:198-218 | 8 to 5 yields the zero-padded regrouping; 5 to 8 yields bytes if and only if some bytes regroup to these words |
| `Bech32Regroup.GroupsUnique` | internal/tx/internal/keys/derive.go:198-218 | words and bytes determine each other, so the padding rule admits one form only |
| `Bech32.Checksum` | internal/tx/internal/keys/derive.go:175-184 | the six symbols are the unique ones that close the register over prefix and data |
| `Bech32.AddressFromBytes` | internal/tx/internal/keys/derive.go:102-108 | the text encodes exactly the given prefix and bytes |
| `Bech32.Decode` | internal/tx/internal/keys/derive.go:111-140 | succeeds with the prefix and bytes that the trimmed, lower-cased text encodes, and fails if and only if it encodes none, with an error that names a fault the text has |
| `Bech32.FaultIsUnique` | internal/tx/internal/keys/derive.go:111-140 | no text has two of the faults: no separator with room after it, a first character outside the charset at the position, a register that does not close, or symbols that no bytes regroup to |
| `Bech32.EncodingIsBijective` | internal/tx/internal/keys/derive.go:186-196 | equal texts if and only if equal prefix and bytes |
| `Bech32.RoundTrip` | internal/tx/internal/keys/derive.go:102-140 | decoding an encoding gives back prefix and bytes if and only if the prefix is non-empty, without capitals and without leading white space |
| `Bech32.ReadBack` | internal/tx/internal/keys/derive.go:102-140 | the same of the two methods called one after the other |
| `Bech32.DecodingIsCanonical` | internal/tx/internal/keys/derive.go:111-140 | re-encoding what was decoded gives the normalized text |
| `Bech32.BurstDetected` | internal/tx/internal/keys/derive.go:129-132 | replacing one symbol, or up to six neighbouring ones, in a valid address of any length leaves a text that encodes nothing, and that decoding rejects if the prefix is plain |
| `Bech32.PrefixLetterDetected` | internal/tx/internal/keys/derive.go:129-132 | the same for one letter of the prefix replaced by another with the same high three bits, at any length |
| `Bech32Spelling.EncodedSpelling` | internal/tx/internal/keys/derive.go:144-196 | every character of an address: the prefix, a '1', and then the character of the charset at the number that each five bits of the zero-padded bytes spell, most significant first; six more follow |
| `Bech32Spelling.GroupsIff` | internal/tx/internal/keys/derive.go:198-218 | symbols are the regrouping of bytes if and only if there are ceil(8n / 5) of them and each is the number of its five bits |
| `Bech32Spelling.NormalizedSpelling` | internal/tx/internal/keys/derive.go:112 | what is decoded is all of the text but the white space at both ends, with A to Z made small |
| `Bech32Spelling.AddressVector` | internal/tx/internal/keys/derive.go:111-140 | the valid address abcdef1qpzry9x8gf2tvdw0s3jn54khce6mua7lmqqqxw of BIP 173 means abcdef and its twenty bytes |
| `Registry.ChainUpdate` | pkg/chainregistry/store.go:266-300 | the loop over all classified fields equals holding every frozen field at once and queueing exactly the differing ones, and touches no other chain's queue |
| `Registry.UpdateDone` | pkg/chainregistry/store.go:116-161 | the two loops over chains, in any order, amount to the declarative update of all views and of the queue |
| `Registry.UpdateRestores` | pkg/chainregistry/store.go:116-161 | a live update makes every tracked chain consistent, whatever happened before |
| `Registry.AcceptKeeps` | pkg/chainregistry/store.go:182-204 | an acceptance keeps every chain consistent |
| `Registry.RunKeepsInvariant` | pkg/chainregistry/store.go:42-238 | over every run of live updates, acceptances, standalone additions and reloads the store is sound, and consistent unless a reload came after the last live update |
| `Registry.ViewDescribed` | pkg/chainregistry/store.go:266-312 | the view is the live data under the overrides with exactly the pending fields held; pending if and only if frozen and different, with the target as new value |
| `Registry.AcceptAllReaches` | pkg/chainregistry/store.go:182-204 | accepting all pending fields of a chain, in any order, succeeds and reaches the live data under the overrides, and leaves the other chains alone |
| `Registry.ReloadAppliesAll` | pkg/chainregistry/store.go:208-238 | a reload reaches the target in one step and keeps the queue; consistent if and only if nothing was pending |
| `Registry.AcceptAfterReload` | pkg/chainregistry/store.go:182-238 | a change accepted after a reload brings back the value under the former overrides |
| `Registry.ReloadGoesWrong` | pkg/chainregistry/store.go:182-238 | a run from the empty store, for any chain, in which a reload leaves the store inconsistent and the acceptance undoes the override |
| `Registry.NextUpdateClears` | pkg/chainregistry/store.go:269-273 | the next live update with the same data keeps the views and empties the stale queue |
| `Registry.TokensRepriced` | pkg/chainregistry/override.go:122-146 | a list of overrides amounts to: the first token of a denom gets the last parseable price per tier, every other token stays |
| `Registry.HarmlessIff` | pkg/chainregistry/override.go:122-146 | the token list stays as it is if and only if no such price differs |
| `Registry.ReloadRevertsIff` | pkg/chainregistry/resolve.go:31-42 | taking an override away restores a standalone chain if and only if it was harmless to its fee tokens |
| `Registry.OverrideSticks` | pkg/chainregistry/resolve.go:31-42 | a run from the empty store, for any standalone chain with one fee token, after which a price set by an override that was since removed is still in force |
| `Registry.TokensShown` | pkg/chainregistry/override.go:122-146 | after overrides, each tier of each token shows the last parseable price given for it, if it is the first token of its denom, and else its own price |
| `Registry.ResolvedShows` | pkg/chainregistry/resolve.go:7-42 | field by field, a resolved chain shows the override's value where there is one, in its own field, and the source's value where there is none |
| `Registry.TargetShows` | pkg/chainregistry/resolve.go:7-26 | so does the data that a tracked chain is heading for, with the snapshot as source |
| `Registry.ReloadShows` | pkg/chainregistry/store.go:208-238 | after a reload a standalone chain shows its base and a registry chain the snapshot, under the new overrides; a chain that has neither is as it was, and the queue is kept |
| `Registry.AddedShows` | pkg/chainregistry/store.go:60-71 | an added standalone chain shows its base under the overrides, and no other chain changes |
| `Registry.UpdateShows` | pkg/chainregistry/store.go:116-161 | after a live update, field by field: a new chain shows the snapshot under the overrides; a known one shows it in every field but the frozen ones, which show what they showed; a vanished one is only disabled, and a standalone one stays |
| `Registry.AcceptShows` | pkg/chainregistry/store.go:182-204 | accepting a queued change of a tracked chain succeeds and sets that one field, in its own place, to what the chain is heading for |
| `RegistryStore.Store.constructor` | pkg/chainregistry/store.go:42-54 | a new store is the empty one |
| `RegistryStore.ApplyFeeTokens` | pkg/chainregistry/override.go:122-136 | overwrites the array in place with what the overrides amount to |
| `RegistryStore.Store.ResolveUnsafe` | pkg/chainregistry/resolve.go:7-26 | a registry chain is resolved into a new object with a new token array; found if and only if the snapshot has it |
| `RegistryStore.Store.ResolveStandalone` | pkg/chainregistry/resolve.go:31-42 | a standalone chain is resolved into a new object that shares, and rewrites, the token array of its base |
| `RegistryStore.Store.ApplyChainUpdate` | pkg/chainregistry/store.go:266-300 | refines the field-by-field comparison, writing only to the object not yet published |
| `RegistryStore.Store.UpdateLive` | pkg/chainregistry/store.go:116-161 | refines the update of the state machine; its frame holds no published object, no token array and not the bases |
| `RegistryStore.Store.Accept` | pkg/chainregistry/store.go:182-204 | refines acceptance, error cases included; its frame holds no published object, no token array and not the bases |
| `RegistryStore.Store.SetOverrides` | pkg/chainregistry/store.go:208-238 | refines the reload; every chain info there is shows what it showed if and only if no price is written through it |
| `RegistryStore.Store.AddStandalone` | pkg/chainregistry/store.go:60-71 | refines the addition of standalone chains one after the other, whose token arrays may be rewritten at once |
| `RegistryStore.Store.Get` | pkg/chainregistry/store.go:76-84 | the published view of the chain, or nothing if and only if there is none; for a registry chain its token array is recorded as published |
| `RegistryStore.Store.Perform` | pkg/chainregistry/types.go:111-114 | every run of the store is a run of the state machine, and no chain info of a registry chain handed out before or since replaced changes in it; one of a standalone chain does not if every reload is harmless to it |
| `Window.Window.Enqueue` | internal/batch/window.go:47-60 | refines the enqueue step; refused if and only if the queue is full |
| `Window.Window.DoFlush` | internal/batch/window.go:86-100 | hands out the longest prefix of the queue that fits one batch |
| `Window.Window.Round` | internal/batch/window.go:64-81 | one round of the select loop is one step of the state machine |
| `Window.RunConserves` | internal/batch/window.go:47-100 | over every interleaving, accepted requests are the batches in order followed by the queue; batches are non-empty and bounded, and so is the queue |
| `Window.CancelDrainsIff` | internal/batch/window.go:70-72 | the flush at cancellation empties the queue if and only if one batch is enough |
| `Window.LeftBehind` | internal/batch/window.go:70-72 | what it leaves is never handed out, whatever comes after |
| `Window.ShutdownLeaves` | internal/batch/window.go:70-72 | a run of a new window that leaves a request behind |
| `Window.BacklogIff` | internal/batch/window.go:53-77 | an early flush leaves a full batch waiting without a signal if and only if two were queued |
| `Window.SignalIff` | internal/batch/window.go:47-81 | over every run the early-flush signal is up if and only if a request that filled a batch raised it, or it was up from the start, and the running goroutine has not answered it since |
| `Pool.Pool.constructor` | internal/batch/pool.go:33-48 | distributors with keys 1 to n, healthy, with windows of their own |
| `Pool.Pool.Route` | internal/batch/pool.go:53-74 | the request goes to a least-loaded healthy window and nowhere else; both errors are characterised by if and only if |
| `Pool.RunKeepsEven` | internal/batch/pool.go:53-74 | a run of routings never widens the gap between healthy queues beyond what it was, or one |
| `Pool.Pool.Mark` | internal/batch/pool.go:77-98 | changes the status of the one distributor with the key |
| `Pool.Pool.Healthy` | internal/batch/pool.go:101-111 | lists the keys of the healthy distributors in order |
| `Pool.KeysAscend` | internal/batch/pool.go:101-111 | these keys ascend, so each is listed once |
| `Flush.Chain.Flush` | internal/chain/chain.go:341-428 | refines the effect of a flush on answers, streaks, flags, the pool's distributors, the list of broadcasts and the ledger; the ledger stays what all answers so far promise |
| `Flush.FlushAttempts` | internal/chain/chain.go:341-415 | every broadcast of a flush: multi-sends carry the whole batch from the batch's own account, and there is a second one if and only if the first ended in a sequence mismatch or an insufficient fee; single sends follow if and only if multi-send is off or its last try failed, the i-th for the i-th request from the i-th healthy distributor in rotation, or from the batch's own account if there is none, until one fails |
| `Flush.FlushExplained` | internal/chain/chain.go:341-428 | by these broadcasts alone: what each request is told, which payments were made and from which account, that the account of a failed single send and no other leaves the healthy list, and how the breaker moves |
| `Flush.Chain.Split` | internal/chain/chain.go:385-415 | single sends until the first failure, whose error goes to all that are left |
| `Flush.Chain.Resume` | internal/chain/chain.go:287-293 | clears suspension and streaks but not the multi-send switch |
| `Flush.Chain.SendErrAll` | internal/chain/chain.go:431-435 | every request gets the error, in order |
| `Flush.FlushSettles` | internal/chain/chain.go:341-435 | on every path each request is answered once, and the ledger grows by one payment for each request that was told a hash, in that transaction, to that address, of those coins |
| `Flush.FlushOnBreaker` | internal/chain/chain.go:341-428 | a flush moves the breaker by its kind alone; while suspended nothing is broadcast or changed |
| `Flush.BreakerTracksHistory` | internal/chain/chain.go:49-53 | over every run the streak counts failed flushes since the last clean one or resumption, suspension holds from the fifth on, and multi-send is off from the third split-clean failure on and never back on |
| `Flush.DistributorsOnlyLeave` | internal/chain/chain.go:401-412 | over every run, the number of healthy distributors is the initial one less the failed flushes, and at least zero |
| `Flush.MarkIsWithout` | internal/batch/pool.go:77-86 | marking a distributor takes exactly its key out of the healthy list |
| `Pipeline.EveryRequestOnce` | internal/chain/chain.go:341-435 | over every run of routing, ticks, early flushes, cancellations, flushes and resumptions of a pool, each request let in is still queued or answered exactly once, and the ledger is what the answers promise |
| `Pipeline.Line.Pour` | internal/chain/chain.go:246-260 | refused if and only if the chain is suspended, else routed into the pool object: one act of such a run |
| `Pipeline.Line.Turn` | internal/batch/window.go:64-100 | a round of a window object and the flush it causes are one act of such a run |
| `Pipeline.Line.AlwaysAccounted` | internal/chain/chain.go:341-435 | so the pool, its windows, the chain and the ledger as objects always account for every request |
| `RateLimit.Limiter.Check` | internal/abuse/ratelimit/ratelimit.go:51-98 | refines the request limit per address of origin, the failed scan of a missing oldest row included |
| `RateLimit.Limiter.CheckAPIKey` | internal/abuse/ratelimit/ratelimit.go:182-233 | refines the request limit per key, with its own or the default limit |
| `RateLimit.Limiter.CheckAddress` | internal/abuse/ratelimit/ratelimit.go:106-174 | refines the coin cap on the decoded bytes, with its three kinds of error |
| `RateLimit.RequestAnswered` | internal/abuse/ratelimit/ratelimit.go:51-98 | over every run, a request is admitted if and only if fewer than the limit were admitted to its bucket at or after the start of its window; then it is logged, and nothing else is; refused, it is told a window after the earliest admission in sight |
| `RateLimit.DripAnswered` | internal/abuse/ratelimit/ratelimit.go:106-174 | over every run, a drip is admitted if and only if with it the coins of the last 86400 seconds stay within the cap |
| `RateLimit.EarliestIs` | internal/abuse/ratelimit/ratelimit.go:74-83 | the earliest admission in sight is one of them and none is earlier; there is none if and only if none is in sight |
| `RateLimit.BucketsApart` | internal/abuse/ratelimit/ratelimit.go:51-98 | a call on one bucket never changes the answer to a call on another |
| `RateLimit.CountedApart` | internal/abuse/ratelimit/ratelimit.go:106-122 | so addresses of different bytes, key algorithms, chains or denominations never answer for each other |
| `RateLimit.RecordFaithful` | internal/abuse/ratelimit/ratelimit.go:88-97 | the per-second rows add up to the log of admissions, for every bucket and start |
| `RateLimit.EveryIntervalBounded` | internal/abuse/ratelimit/ratelimit.go:51-98 | over every run and any clock, every closed interval of the window's length holds at most the limit |
| `RateLimit.RetryTimeExact` | internal/abuse/ratelimit/ratelimit.go:66-87 | a refused caller is admitted at t if and only if t is past the reported time |
| `RateLimit.RefusedWhenTold` | internal/abuse/ratelimit/ratelimit.go:66-87 | a caller that is refused at the time it was told, and let in a second later |
| `RateLimit.ScanErrorIff` | internal/abuse/ratelimit/ratelimit.go:74-83 | the scan of the oldest row fails if and only if nothing is allowed and nothing is in the window |
| `RateLimit.CapRetryIff` | internal/abuse/ratelimit/ratelimit.go:140-160 | a caller refused by the coin cap is let in a second after the reported time if and only if what the oldest second holds covers the excess |
| `RateLimit.CapRefusedWhenTold` | internal/abuse/ratelimit/ratelimit.go:140-160 | two drips after which a caller is refused even past the reported time |
| `Gate.Gate.AdmitRequest` | internal/abuse/gate.go:126-145 | refines the gate: limit by origin, then the one mechanism that applies |
| `Gate.Gate.AdmitAPIKey` | internal/abuse/gate.go:147-168 | refines the key path: lookup, limit, drip of the key, address cap |
| `Gate.Gate.AdmitSigned` | internal/abuse/gate.go:170-206 | refines the signature path: nonce, signature, predicate, drip, address cap |
| `Gate.Gate.AdmitPoW` | internal/abuse/gate.go:208-223 | refines the proof-of-work path |
| `Gate.JudgedKeeps` | internal/abuse/gate.go:126-230 | one admission logs exactly the coins that its decision hands out, whatever the mechanism |
| `Gate.NeverMoreThanTheCap` | internal/abuse/gate.go:126-230 | over every run mixing all mechanisms, the coins handed out of one bucket in any 24 hours stay within its cap |
| `Gate.PrefixesShareBucket` | internal/abuse/ratelimit/ratelimit.go:106-116 | two spellings of the same bytes under different prefixes count in the same bucket |
| `GateRules.AdmitIff` | internal/abuse/gate.go:126-230 | after every run, admitted by a mechanism with a coin if and only if the origin has requests left, the request meets all that the mechanism asks and shows no earlier one, the key has requests left, the coin is the mechanism's, and the cap has room |
| `GateRules.RejectIff` | internal/abuse/gate.go:126-230 | after every run, rejected with an error if and only if the condition that the error names is the first to fail |
| `GateRules.LogGrows` | internal/abuse/gate.go:126-230 | a request that its origin has room for is logged, so is one that its key has room for, and the coins handed out; nothing else |
| `GateRules.OriginNeverExceeds` | internal/abuse/gate.go:126-130 | over every run and any clock, no window lets in more requests from one origin to one chain than allowed |
| `GateRules.KeyNeverExceeds` | internal/abuse/gate.go:147-158 | over every run and any clock, no key is used more often in 3600 seconds than its limit |
| `Send.EndpointPool.Next` | internal/tx/endpoint.go:30-39 | the first healthy endpoint, if there is one |
| `Send.EndpointPool.Mark` | internal/tx/endpoint.go:42-63 | sets the health of the first endpoint with exactly that URL |
| `Send.NewClient` | internal/tx/client.go:38-111 | fails if and only if there is no endpoint or the first dial fails; starts with gRPC if there is any endpoint of it, else with REST |
| `Send.TxClient.Restore` | internal/chain/health.go:26-28 | the effect of the probe loop on the session |
| `Send.TxClient.Switch` | internal/tx/client.go:235-275 | refines the failover from the active pool to the next endpoint or to REST |
| `Send.TxClient.AttemptSendWithFailover` | internal/tx/client.go:218-277 | refines the rounds of attempts around failovers |
| `Send.TxClient.DoSend` | internal/tx/client.go:189-214 | refines the sequence retries around them |
| `Send.SendBounded` | internal/tx/client.go:189-277 | at most eight attempts, each but the last ended by a sequence mismatch or an unavailable endpoint; REST is never left |
| `SendRules.SendAnswered` | internal/tx/client.go:189-277 | for every network and client: a hash if and only if the last attempt went through; a sequence mismatch if and only if the last attempt was the fourth of them; a cancellation if and only if the wait after a mismatch was canceled; an endpoint error if and only if the last attempt found its endpoint unavailable; a dial error if and only if the last dial failed |
| `SendRules.FailOverGoes` | internal/tx/client.go:235-275 | a failover marks the active endpoint, leaves the other pool alone and goes to the first healthy endpoint of the same pool, or else from gRPC to the first of REST; it finds none if and only if all of these are down |
| `SendRules.RestoreGoes` | internal/tx/endpoint.go:53-62 | a restored gRPC endpoint is healthy again where its URL is first listed, and nothing else changes |
| `SendRules.TrimmedURL` | internal/tx/rest.go:22-27 | the URL of a REST transport is the given one without the slashes at its end |
| `Send.SwitchBoundIff` | internal/tx/client.go:218-277 | over every network and session, a new client switches at most as often as it has other endpoints, plus one per endpoint restored, if and only if no URL is repeated in a pool and no REST URL ends in a slash |
| `Send.StuckFailOver` | internal/tx/client.go:235-275 | a client with a healthy endpoint that marking cannot reach switches at every failover, and keeps one |
| `Send.MarkReachesIff` | internal/tx/endpoint.go:42-51 | after a switch to it, a healthy REST endpoint is marked if and only if its URL has no trailing slash and is not listed before it |
| `Send.NeverLeft` | internal/tx/rest.go:22-27 | with everything down, such a client switches twice at every send, without end |
| `GasCache.Cache.RecordSuccess` | internal/gascache/cache.go:84-135 | a success enters the history of the one chain, unless the price does not parse |
| `GasCache.Cache.Lookup` | internal/gascache/cache.go:30-75 | what the history of the chain makes of the message type, if it has samples |
| `GasCache.Cache.Reset` | internal/gascache/cache.go:186-191 | the history of the one chain starts anew |
| `GasCache.Cache.RunDecay` | internal/gascache/decay.go:39-90 | one decay tick enters the history of every chain, whatever the order of the rows |
| `GasCache.AveragesTrackSamples` | internal/gascache/cache.go:84-135 | over every run, counts are exact and each average lies between the least and the greatest sample since the last reset, for both kinds of message |
| `GasCache.AveragesAreOfSamples` | internal/gascache/cache.go:84-135 | over every run, a row exists if and only if there was a success since the last reset, and it holds the averages and counts of those samples |
| `GasCache.LookupAnswers` | internal/gascache/cache.go:30-75 | over every run, when Lookup answers for each kind of message, and with which averages and counts |
| `GasCache.PriceIsLastRecorded` | internal/gascache/cache.go:30-75 | over every run, Lookup answers the denomination of the last success and its price after the ticks since, with their floors |
| `GasCache.AverageMoves` | internal/gascache/cache.go:103-129 | an average above the sample falls strictly and not past it; one below rises by the gap over the weight, rounded down |
| `GasCache.FixedIff` | internal/gascache/cache.go:103-129 | after 20 samples an average stands still if and only if the sample is 0 to 20 above it |
| `GasCache.ReachedFromAbove` | internal/gascache/cache.go:103-129 | equal samples are reached exactly from above, within as many steps as the gap |
| `GasCache.StopsBelow` | internal/gascache/cache.go:103-129 | from below the average comes within 20 of the sample and never passes it |
| `GasCache.TrustedSendCovers` | internal/tx/fee.go:57-66 | over every run the cache is trusted if and only if there are five samples since the last reset, and if these lie in [m, M] with 10 M at most 13 m, the limit covers M |
| `GasCache.TrustedMultiCovers` | internal/tx/fee.go:57-66 | the same for multi-sends, whose samples are rounded down per output |
| `GasCache.DecayKeepsFloor` | internal/gascache/decay.go:59-78 | no number of ticks raises a price or takes it below a floor that it was not below |
| `GasCache.DecayedToFloor` | internal/gascache/decay.go:59-78 | after n ticks the price is the greater of the floor and of n tenths taken off |
| `GasCache.FloorReached` | internal/gascache/decay.go:59-78 | a positive floor f is reached from p within 9 (p - f) / f ticks |
| `GasCache.DecayedWithoutFloor` | internal/gascache/decay.go:59-78 | without a floor the price stays positive and falls at every tick |
| `MsgBank.BuildMsgMultiSend` | internal/tx/msg_bank.go:38-94 | fails if and only if there is no output or an amount does not parse, naming the first such coin; denoms once each in order of first occurrence; balanced if and only if every total fits an int64 |
| `MsgBank.FormatReads` | internal/tx/msg_bank.go:97-103 | a printed int64 parses back to itself |
| `MsgBank.FormatIsPlain` | internal/tx/msg_bank.go:59-65 | a number is written without leading noughts, with a minus sign if and only if it is negative |
| `MsgBank.PowersOfTen` | internal/tx/msg_bank.go:97-103 | a one with n noughts is read as 10^n, and a digit as itself |
| `MsgBank.SignsAndLimits` | internal/tx/msg_bank.go:97-103 | one sign is read, then digits, and a number if and only if it fits an int64 |
| `MsgBank.OverflowUnbalances` | internal/tx/msg_bank.go:44-55 | two outputs for which every message that is built spends -2^63 and is not balanced |
| `Der.PadDER` | internal/abuse/signed/verifier.go:168-178 | the same number in the minimal non-negative form of section 8.3 of X.690 |
| `Der.CompactToDER` | internal/abuse/signed/verifier.go:153-165 | a strict DER reader reads back both halves; fails if and only if the length is not 64 |
| `Der.ParseSig` | internal/abuse/signed/verifier.go:137-150 | accepts 64 bytes, or 65 with a leading recovery byte, and nothing else |
| `Der.SmallSignature` | internal/abuse/signed/verifier.go:153-178 | the pair (1, 128) is 30 07 02 01 01 02 02 00 80 |
| `Der.ReaderInjective` | internal/abuse/signed/verifier.go:153-165 | a pair of numbers has one strict DER form (sections 8.1.3, 8.3 and 10.1 of X.690) |

## Left out

- Bech32.AddressFromBytes: requires an ASCII prefix; the source expands a prefix rune by rune, which is not modelled.
- Bech32.Decode: requires ASCII text; Unicode lower-casing and trimming are not modelled.
- Bech32.ReadBack: requires an ASCII prefix, as its two halves do.
- Bech32Regroup.ConvertBits: stated for the two ways it is called, 8 to 5 with padding and 5 to 8 without, not for other widths.
- Key derivation, hashing, secp256k1, Argon2 and ADR-036 sign bytes: foreign cryptography.
- Registry display data: LastChanged, DetectedAt, Sources, IBC channels and the ChangeSet that UpdateLive returns.
- Registry.DiffField: compares gas-price and display summaries as sequences, not as the joined strings of the source, and does not tell a nil slice from an empty one or one decimal representation from another.
- Registry snapshots: a snapshot holds chains already converted from the registry's JSON; the pending queue is keyed by the pair of chain and field, not by the joined string.
- RegistryStore.Store.AddStandalone: requires token arrays of their own that the store never held, as config.ToStandaloneInfos builds them; adding one array twice is not modelled.
- Goroutine scheduling below the granularity of a lock: each method of the store, the limiter, the pool and the window is one atomic step, and so is a flush.
- Flush.Chain.Flush: takes a broadcast that reports an error to have had no effect on the chain.
- The synchronous mode without a pool in Chain.Pour, Suspend by the refill loop, refill arithmetic, distributor states and metrics: one branch each.
- SQLite: tables are sequences or maps and sums are unbounded, so that sums of 2^63 and above are not modelled; a bucket is keyed by its parts, not by the joined string.
- RateLimit.Limiter.CheckAddress: requires an ASCII address, and amounts are natural numbers; negative ones, which the source's parser lets through, are not modelled.
- Gate.Gate.AdmitRequest: requires an ASCII address; nonce store, signature, predicate and proof-of-work checks are given by their outcomes in the attempt.
- Gate.Gate.AdmitAPIKey: requires an ASCII address, as the address cap does.
- Gate.Gate.AdmitSigned: requires an ASCII address, as the address cap does.
- Gate.Gate.AdmitPoW: requires an ASCII address, as the address cap does.
- Send.NewClient: leaves out key derivation and a gRPC pool supplied by the caller.
- Transports, protobuf encoding, signing, simulation, and the registry and static fallbacks of fee estimation.
- GasCache.TrustedSendCovers: gas is a natural number, without the uint64 and int64 conversions of the source.
- HTTP handlers, command line, configuration loading, devnet support, user interface and logging.
