# GovScribe: verified model of the desensitization gateway and its neighbours

GovScribe sends drafts of official documents to language models.  Text that leaves for a
public model first passes a desensitization gateway, which replaces sensitive entities by
numbered placeholders such as `〖PERSON_01〗` and puts the originals back into the answer,
also when the answer arrives as a stream.  This project models that gateway and five
state machines around it, and proves what they promise.

| module | models |
|---|---|
| `Wrappers` | optional values and results that may be errors |
| `Text`, `Restore` | byte offsets over code points, `strings.ReplaceAll`, the restoring chain of replacements |
| `Merge` | hits and the merging of overlapping hits |
| `Placeholders`, `Mapper`, `Processor` | placeholder names, the shared mapper, sanitizing all messages of a request |
| `RoundTripExactness` | which texts survive sanitizing and restoring |
| `Cuts`, `TailBuffer`, `StreamingExactness` | restoring a text in parts, the tail buffer, which mapping lists stream faithfully |
| `Pipeline` | the whole way there and back |
| `ModelConfigs`, `Routing`, `Decorator` | model configs, route policies, network resolution and the outbound decision with its audit trail |
| `StreamedAnswers`, `GatewayPromises` | complete and streaming requests compared; what is sent, restored, recorded and delivered, without the decision functions |
| `Breaker` | the circuit breaker around the NER client, with calls interleaving |
| `Outbox` | outbox events, reconciliation and rebuild of the derived index |
| `ConfigService` | model configs, their store, and the proxy copy with compensation |
| `Limiter` | the sliding-window limiter for failed logins and the authenticator driving it |
| `StreamPump` | the one-slot stream pump racing with cancellation |

How to read it.  Objects whose methods update fields are classes; each method's contract
ties the new state to a function of the old one, and the lemmas are about those functions.
Goroutines that interleave (`Breaker`, `StreamPump`) are step relations over which runs are
quantified.  Recognizers, clocks, user stores, probes and every call that may fail are
parameters: a statement holds for all their answers.

## Main results

* **Round trip.**  With one mapper shared by all messages, restoring a sanitized message
  with the final mapping list gives back the original (`Processor.MessageRoundTrip`).  The
  texts for which this holds in every request are exactly those that spell no placeholder
  name (`RoundTripExactness.RoundTripExact`); texts without `〖` are among them.
* **Streaming equals batch.**  For every cutting of an answer into deltas the client reads
  the restoration of the whole answer (`TailBuffer.StreamEqualsBatch`), for exactly those
  mapping lists in which assembly does no harm: a placeholder of which an original restored
  before it is a fragment must in the end be restored to itself
  (`StreamingExactness.StreamingExact`, with no condition on what originals or messages
  hold).  `Pipeline.StreamingCanDiffer` is a concrete request that fails.  Answers that do
  not nest brackets, for requests without any, are safe in every case.  Through the whole
  gateway, a streaming request delivers the text a complete one returns
  (`StreamedAnswers.StreamMatchesComplete`).
  Event by event, Done comes after all text before it and no event is lost or moved
  (`TailBuffer.DeliveredInTime`, `TailBuffer.DoneComesLast`).
* **Masking and echo.**  What a public model is sent is the text with reported spans replaced,
  no reported hit being passed over (`GatewayPromises.SentIsMasked`); when it answers with
  what it was sent, the caller gets the text of the request (`GatewayPromises.EchoCompletes`).
* **Merging.**  The loop that looks only for the first overlap keeps its result disjoint and
  in order, and every hit is dominated by a kept one along a climbing chain of overlaps.
* **Outbound confinement.**  What reaches a network that is not private is processor output
  of a request neither classified nor unknown, on record before it left, be it complete or
  streaming (`Decorator.OutboundConfinement`); for all requests this holds exactly when the
  configs marked current agree on being private (`Decorator.ConfinementExact`), as they do in
  every state the config service reaches (`Decorator.ServiceKeepsConfinement`).
* **Breaker.**  Its invariant over every interleaving, and a bound on upstream calls while
  none succeeds (`Breaker.StormBound`).  At most one probe at a time is not promised: a late
  success of an older call under a running probe is what breaks it, and nothing else does
  (`Breaker.OneProbeExactly`, `Breaker.OvertakingDecides`).  When the circuit opens and for
  how long is read off the calls alone (`Breaker.OpensExactly`, `Breaker.OpenExactly`).
* **Reconciliation** converges under any order, duplication and failure of deliveries
  (`Outbox.ReconcileConverges`); its counters are exact (`Outbox.ReconcileAccounting`).
* **Proxy agreement** is lost exactly by a restoring sync that fails, and mended exactly by
  an operation that writes the entry anew (`ConfigService.AgreementAfter`,
  `ConfigService.RunAgreement`).
* **Login lockout**: exactly which attempts are refused (`Limiter.LockoutExactly`), at most how
  many failures get through (`Limiter.LoginBound`), and that pruning is invisible
  (`Limiter.PruningIsInvisible`).
* **Stream pump**: what a consumer can see under any schedule (`StreamPump.ConsumerView`).

## Where code and documentation differ

The design asks that a streamed answer be restored like a complete one.  The code does this
only under the conditions above: the chain of `ReplaceAll` calls rescans restored text, so an
original such as `01` can complete a later placeholder, and the buffer has by then released
one of its parts.  The model follows the code.

## Model

| member | source | states |
|---|---|---|
| Merge.OnlyLastOverlaps | internal/desensitization/gateway/merge.go:26-32 | while hits come in position order, the first overlap found is with the last kept hit, so replacing in place cannot disturb the others |
| Merge.OfferHit | internal/desensitization/gateway/merge.go:22-39 | one turn of the merge loop, search and in-place replacement included, acts on the last kept hit alone |
| Merge.MergeHits | internal/desensitization/gateway/merge.go:5-43 | the two sorts and the nested loop compute the fold of single offers; the result is nonempty spans, pairwise disjoint, in position order, so the final sort changes nothing |
| Merge.MergedDisjoint | internal/desensitization/gateway/merge.go:21-43 | output spans are nonempty, pairwise disjoint and in position order for every input |
| Merge.MergedFromInput | internal/desensitization/gateway/merge.go:21-43 | the output is a sub-multiset of the input: no hit is invented or repeated |
| Merge.MergeIdempotent | internal/desensitization/gateway/merge.go:5-43 | merging merged hits again changes nothing, as happens when NER hits are added |
| Merge.MergeDominates | internal/desensitization/gateway/merge.go:21-50 | every nonempty input hit reaches an output hit through input hits overlapping one after the other whose (priority, length) never gets worse |
| Merge.StrictlyBestIsKept | internal/desensitization/gateway/merge.go:37-50 | a hit that outranks everything it overlaps is always kept |
| Merge.BetterExactly | internal/desensitization/gateway/merge.go:45-66 | of two hits the better one is: a blacklisted keyword before others, then regex before dictionary before NER before the rest, and between equals the longer |
| Merge.MergedPair | internal/desensitization/gateway/merge.go:21-43 | what becomes of two hits: both if they do not overlap, else the better, and between equals the first |
| Placeholders.PlaceholderShaped | internal/desensitization/gateway/placeholder.go:115-121 | a placeholder has its brackets at its ends and none inside |
| Placeholders.PlaceholderInjective | internal/desensitization/gateway/placeholder.go:115-121 | type and number can be read back from a placeholder, type names with underscores and `%02d` padding notwithstanding |
| Placeholders.KeyInjective | internal/desensitization/gateway/placeholder.go:65 | the NUL-joined key determines entity type and text |
| Placeholders.NamesRead | internal/desensitization/gateway/placeholder.go:115-121 | placeholders as they read: `〖PERSON_01〗`, `〖PROJECT_CODE_12〗`, `〖AMOUNT_100〗` |
| Restore.RestoreText | internal/desensitization/gateway/placeholder.go:107-113 | the loop computes the chain of replacements in list order |
| Restore.RoundTrip | internal/desensitization/gateway/placeholder.go:107-113 | a text cut into plain stretches and tokens is restored to the text with originals, at every stage of the chain, if no placeholder of the list occurs in that text |
| Mapper.PlaceholderMapper.InternHit | internal/desensitization/gateway/placeholder.go:65-77 | reuse of the entry for (type, text), or a new one with the next number of the type, appended to the list |
| Mapper.PlaceholderMapper.RecordHit | internal/desensitization/gateway/placeholder.go:65-88 | the above plus the match detail with message index and role |
| Mapper.PlaceholderMapper.ApplyWithMessageContext | internal/desensitization/gateway/placeholder.go:49-93 | the cursor loop over the sorted hits changes the mapper and builds the text as the recursive rewriting does |
| Mapper.InternKeeps | internal/desensitization/gateway/placeholder.go:65-77 | interning keeps the mapper's invariant, the list only grows, and the entry found is the hit's own |
| Mapper.InternExactly | internal/desensitization/gateway/placeholder.go:65-77 | a text of a type that has no entry gets the next number of the type and the source that found it; one that has an entry changes nothing |
| Mapper.OneToOne | internal/desensitization/gateway/placeholder.go:65-77 | (type, text) pairs, entries and placeholders stay in one-to-one correspondence and placeholders stay well formed |
| Mapper.NumbersAreExact | internal/desensitization/gateway/placeholder.go:67-76 | the numbers in use for a type are exactly 1 to its count |
| Processor.ApplyRoundTrip | internal/desensitization/gateway/placeholder.go:49-113 | a sanitized text is restored exactly by any later mapping list none of whose placeholders occurs in the original |
| Processor.MergeThenApply | internal/desensitization/gateway/placeholder.go:57-92 | on merged in-range hits the cursor guard never fires: every merged span is replaced, everything else is conserved, and the details list the spans in order |
| Processor.RecognizeWithNER | internal/desensitization/gateway/processor.go:76-95 | hits of regex and dictionary merged, then merged again with the NER hits, or the NER error |
| Processor.SanitizeOne | internal/desensitization/gateway/processor.go:58-71 | one message: recognized, rewritten by the shared mapper, difference noted; an NER error stops it |
| Processor.SanitizeEach | internal/desensitization/gateway/processor.go:36-74 | the loop over messages rewrites them in order with the shared mapper, or stops at the first NER error |
| Processor.SanitizeMessagesContext | internal/desensitization/gateway/processor.go:54-74 | messages, mappings, matches, joined text and differences of the whole request, or the first NER error and nothing else |
| Processor.MessageRoundTrip | internal/desensitization/gateway/processor.go:36-52 | each message free of the final list's placeholders comes back with its role and exact content, mappings of later messages included |
| Processor.UsedHitsFromText | internal/desensitization/gateway/processor.go:76-95 | if regex, dictionary and NER report text of the message they were given, so do the hits used after both merges |
| Processor.ProcessedComesBack | internal/desensitization/gateway/processor.go:54-74 | restoring with the mappings of the processor's result gives back every message in which none of them occurs |
| Processor.UsedHits | internal/desensitization/gateway/processor.go:76-95 | of all hits reported, NER included when it is used, those applied are reported ones, and each nonempty one is among them or gave way to one of them |
| Processor.SanitizedIsMasked | internal/desensitization/gateway/processor.go:36-74 | every message becomes its text with disjoint reported spans replaced, none passed over, everything else kept; the match details list all of them in order, and every name stands for its text in the mapping list |
| Processor.ProcessedMeans | internal/desensitization/gateway/processor.go:54-74 | the same of the result the processor returns, with one difference per message that shows text before and after |
| Processor.JoinedInOrder | internal/desensitization/gateway/decorator.go:316-322 | joined text is the messages one after the other |
| RoundTripExactness.SpelledIsLost | internal/desensitization/gateway/placeholder.go:107-121 | for any text that spells a placeholder name there is a request from which it does not come back |
| RoundTripExactness.RoundTripExact | internal/desensitization/gateway/placeholder.go:49-121 | a text comes back from every request if and only if it spells no placeholder name |
| RoundTripExactness.OpenFreeComesBack | internal/desensitization/gateway/placeholder.go:49-121 | every text without an opening bracket comes back from every request |
| TailBuffer.SplitExactly | internal/desensitization/gateway/tail_buffer.go:45-58 | the two parts join to the text; held back is exactly the text from the last opening bracket on, if it is not closed and no longer than the longest placeholder, and otherwise nothing |
| TailBuffer.PlaceholderTailBuffer.constructor | internal/desensitization/gateway/tail_buffer.go:16-24 | the loop finds the byte length of the longest placeholder |
| TailBuffer.PlaceholderTailBuffer.Push | internal/desensitization/gateway/tail_buffer.go:26-34 | an empty delta does nothing; otherwise the released part is restored and the rest becomes the tail |
| TailBuffer.PlaceholderTailBuffer.Flush | internal/desensitization/gateway/tail_buffer.go:36-43 | the tail is restored, returned and cleared |
| TailBuffer.Forward | internal/desensitization/gateway/decorator.go:92-107 | what one upstream event sends downstream and leaves in the buffer |
| Cuts.ChainIsSimultaneous | internal/desensitization/gateway/placeholder.go:107-113 | if assembly does no harm, or the text does not nest brackets and the originals hold none, the chain of replacements is one left-to-right reading in which every placeholder is restored by itself |
| Cuts.StraddleWasThere | internal/desensitization/gateway/placeholder.go:107-113 | a replacement brings about no placeholder across a cut unless its original is a fragment of that placeholder |
| Cuts.RestoreParts | internal/desensitization/gateway/placeholder.go:107-113 | restoration distributes over a cut, at every stage of the chain and whatever the originals hold, if what lies or comes to lie across it is in the end restored to itself |
| Cuts.RestoreDistributes | internal/desensitization/gateway/placeholder.go:107-113 | restoration distributes over any cut no placeholder lies across |
| Cuts.InertHarmless | internal/desensitization/gateway/placeholder.go:107-113 | when no original holds its own placeholder or a later one, harmless assembly is no assembly at all |
| TailBuffer.SplitIsCleanCut | internal/desensitization/gateway/tail_buffer.go:45-58 | whatever arrives later, no placeholder lies across the cut the buffer makes, overlong tails included |
| TailBuffer.StreamEqualsBatch | internal/desensitization/gateway/decorator.go:88-112 | the text delivered, over every cutting into deltas and error events in between, is the restoration of the whole upstream text, for every mapping list in which assembly does no harm, and else for answers that do not nest brackets and originals without any |
| TailBuffer.AnswersEqualBatches | internal/desensitization/gateway/decorator.go:88-112 | for every stream, events after Done included, the text delivered is the text before each Done, and after the last, each restored on its own |
| TailBuffer.DeliveredInTime | internal/desensitization/gateway/decorator.go:92-107 | before Done, one event is out for each that came in, errors as they came; their text is the restoration of all text so far but for a bracket at its end, not closed and no longer than a placeholder may be, however the text was cut |
| TailBuffer.DoneComesLast | internal/desensitization/gateway/decorator.go:102-107 | Done goes out after all text before it: the events before, the rest of their text in at most one more delta, Done, and then as from a new start |
| TailBuffer.CloseFlushes | internal/desensitization/gateway/decorator.go:109-111 | a stream closed without Done ends with the rest of its text |
| TailBuffer.SignalsKept | internal/desensitization/gateway/decorator.go:91-108 | of every stream, Done and error events go through unchanged and in order, and none is added |
| StreamingExactness.AssemblyBreaksStreaming | internal/desensitization/gateway/tail_buffer.go:26-58 | as soon as one original begins, continues or completes a placeholder restored after it that is not in the end restored to itself, some stream differs from its batch |
| StreamingExactness.StreamingExact | internal/desensitization/gateway/tail_buffer.go:26-58 | for every list of well-formed, distinct placeholders, whatever the originals: every stream reads as its batch if and only if each placeholder of which an original restored before it is a fragment is in the end restored to itself |
| Pipeline.MappingsOfRequest | internal/desensitization/gateway/processor.go:36-52 | in requests whose messages hold none of the final list's placeholders, no original holds one |
| Pipeline.OpenFreeRequest | internal/desensitization/gateway/processor.go:36-52 | requests without opening brackets are such requests, and their originals hold no opening bracket either |
| Pipeline.RequestStreams | internal/desensitization/gateway/decorator.go:88-112 | for every request in whose list assembly does no harm, whatever its messages hold, the streamed text is the restoration of the whole answer; otherwise for requests without opening brackets and answers that do not nest them |
| Pipeline.RequestStreamsExactly | internal/desensitization/gateway/decorator.go:88-112 | for every request: all answers stream as they would come at once if and only if assembly does no harm; when no message spells a placeholder of the request, if and only if no original is a fragment of a later placeholder |
| Pipeline.EchoComesBack | internal/desensitization/gateway/decorator.go:72-114 | a model that streams a sanitized message back, in any deltas, gives the client the original message, without any condition on the originals |
| Pipeline.StreamingCanDiffer | internal/desensitization/gateway/tail_buffer.go:26-58 | a concrete request of two messages without brackets, each a dictionary entry, and an answer to it whose stream differs from the batch |
| Pipeline.LiteralPlaceholderIsLost | internal/desensitization/gateway/placeholder.go:107-121 | a concrete message that does not survive every request |
| Routing.MemoryRouteConfigStore.constructor | internal/desensitization/gateway/route_config.go:110-116 | the store starts sound, with the four default policies |
| Routing.MemoryRouteConfigStore.SavePolicy | internal/desensitization/gateway/route_config.go:128-134 | saving files the hardened policy under its normalized level and keeps the store sound |
| Routing.MemoryRouteConfigStore.SavePolicyWithAudit | internal/desensitization/gateway/route_config.go:136-147 | the same, with one audit of the policy before (or its default) and after |
| Routing.HardenIdempotent | internal/desensitization/gateway/route_config_postgres.go:270-281 | hardening twice is hardening once |
| Routing.ConfidentialStaysPrivate | internal/desensitization/gateway/route_config.go:118-126 | classified, unknown and unlisted levels are routed to the private network and never degraded, whatever was saved |
| Routing.HardenExactly | internal/desensitization/gateway/route_config_postgres.go:270-281 | hardening closes confidential levels and leaves any other policy as it was saved |
| Routing.SavedIsServed | internal/desensitization/gateway/route_config.go:118-134 | a saved policy is served for its level, however spelled, and changes no other |
| Routing.DefaultsServed | internal/desensitization/gateway/route_config.go:188-195 | at first unclassified and sensitive texts go to the public network and all others do not |
| Routing.UnknownSpelled | internal/desensitization/gateway/route_config.go:197-202 | the empty level and `unknown` in small, capital or mixed letters are the unknown level |
| Decorator.Gateway.AuditDisposition | internal/desensitization/gateway/decorator.go:287-314 | one entry is appended, or the request is refused for want of an audit |
| Decorator.Gateway.PrepareRequest | internal/desensitization/gateway/decorator.go:133-178 | the request, mappings and audit trail in each branch of the decision |
| Decorator.Gateway.PrepareUnavailable | internal/desensitization/gateway/decorator.go:188-221 | private route, degraded public call or block when NER is unavailable |
| Decorator.Gateway.Send | internal/llm/runtime/runtime.go:78-84 | a request that resolves is sent to the config it resolves to, another is not sent |
| Decorator.Gateway.SendStream | internal/llm/runtime/runtime.go:86-92 | the same for a streaming call |
| Decorator.Gateway.AuditPrivateRuntimeFailure | internal/desensitization/gateway/decorator.go:244-262 | failures on a private route the gateway chose are put on record with their reason |
| Decorator.Gateway.Complete | internal/desensitization/gateway/decorator.go:52-70 | reply, audit trail and backend calls of a whole request |
| Decorator.Gateway.Stream | internal/desensitization/gateway/decorator.go:72-114 | events, audit trail and backend calls of a whole streaming request |
| Decorator.Gateway.Restream | internal/desensitization/gateway/decorator.go:88-112 | the goroutine: every event forwarded through the buffer, error events put on record first, flush before Done and at close, stop at an audit that fails |
| Decorator.PrivateRouteIsPrivate | internal/llm/runtime/runtime.go:105-132 | a route requiring private resolves to private configs only |
| Decorator.DecisionsAgree | internal/desensitization/gateway/route_resolver.go:18-34 | when the decorator takes the target for private, so does the router, if the current configs agree |
| Decorator.PreparedIsOnRecord | internal/desensitization/gateway/decorator.go:133-221 | a request not aimed at a private network is made ready with exactly one audit, forced to private or as processor output |
| Decorator.DispatchConfinement | internal/desensitization/gateway/decorator.go:120-221 | up to the backend call: at most one, and if its network is not private it carries processor output of a request neither classified nor unknown, on record before |
| Decorator.OutboundConfinement | internal/desensitization/gateway/decorator.go:52-114 | the same over whole requests, complete and streaming, with a trail that only grows |
| Decorator.DisagreementBreaksConfinement | internal/llm/runtime/runtime.go:105-132 | with two current configs, one private and one not, any message of a classified request can reach the other network as it is |
| Decorator.ConfinementExact | internal/llm/runtime/runtime.go:105-132 | confinement of all requests under all listing orders holds if and only if the current configs agree on being private |
| Decorator.ServiceKeepsConfinement | internal/llm/config/service.go:35-208 | so it holds in every state the config service can reach, whatever fails on the way |
| StreamedAnswers.RestreamedIsDelivered | internal/desensitization/gateway/decorator.go:88-112 | when no audit fails, or none is due, the goroutine delivers exactly what the buffer alone would |
| StreamedAnswers.RestreamedIsPrefix | internal/desensitization/gateway/decorator.go:96-101 | a stream that an audit cuts short has delivered a beginning of the restored text |
| StreamedAnswers.StreamMatchesComplete | internal/desensitization/gateway/decorator.go:52-114 | for the same answer, in any deltas, a streaming request makes the same backend call and fails in the same cases as a complete one, and its text is the text returned, or a beginning of it when an audit fails; messages may hold anything if assembly does no harm |
| GatewayPromises.PreparedPair | internal/desensitization/gateway/decorator.go:133-221 | a request goes on with its own messages and nothing to restore, or with the output of the processor and the mappings that belong to it |
| GatewayPromises.SentIsMasked | internal/desensitization/gateway/decorator.go:120-221 | what reaches a network that is not private is the text of the messages with reported spans replaced and none passed over, those of NER included when it answers |
| GatewayPromises.EchoCompletes | internal/desensitization/gateway/decorator.go:52-70 | a model that answers with a message it was sent gives the caller the message of the request, on every way a request can take, if that message spells no placeholder |
| GatewayPromises.EchoStreams | internal/desensitization/gateway/decorator.go:72-114 | the same for a model that streams it, in any deltas, for requests without opening brackets |
| GatewayPromises.NamedRoute | internal/llm/runtime/runtime.go:106-118 | which config a named route leads to, and which error otherwise |
| GatewayPromises.UnnamedPrivateRoute | internal/llm/runtime/runtime.go:119-130 | a private route without a name leads to an enabled private config if there is any |
| GatewayPromises.CurrentRoute | internal/llm/runtime/runtime.go:131 | any other route leads to a current config if there is one |
| GatewayPromises.TargetOf | internal/desensitization/gateway/decorator.go:120-131 | the network the gateway takes a route for, with and without a resolver |
| GatewayPromises.NormalDisposition | internal/desensitization/gateway/decorator.go:133-178 | private by policy, private for want of a processor, or sanitized: the request, and the one audit with its event, reason, level, actor and number of matches |
| GatewayPromises.OutageDisposition | internal/desensitization/gateway/decorator.go:188-221 | NER down: to an enabled, probed private config if there is one, else degraded if the policy and level allow it, else blocked, each with its audit |
| GatewayPromises.NothingUnrecorded | internal/desensitization/gateway/decorator.go:295-298 | without an audit that can be written nothing is made ready that was not private already |
| GatewayPromises.FailureOnRecord | internal/desensitization/gateway/decorator.go:244-262 | a failed call is put on record, with its reason, exactly when the gateway had forced the private route, and its error is what the caller gets |
| GatewayPromises.StreamSignals | internal/desensitization/gateway/decorator.go:91-108 | every Done and error goes through in order; on a forced route each error is put on record with its reason, and one that cannot be ends the stream |
| GatewayPromises.StreamEndsInDone | internal/desensitization/gateway/decorator.go:72-114 | a stream that ends in Done reaches the caller with Done as its last event and, before it, the whole restored text |
| Breaker.NERCircuitBreaker.constructor | internal/desensitization/gateway/circuit_breaker.go:34-49 | closed, with the defaults for settings that are not positive |
| Breaker.NERCircuitBreaker.Begin | internal/desensitization/gateway/circuit_breaker.go:51-74 | the first critical section: admitted, admitted as probe, or rejected |
| Breaker.NERCircuitBreaker.Finish | internal/desensitization/gateway/circuit_breaker.go:77-99 | the second critical section |
| Breaker.NERCircuitBreaker.Trip | internal/desensitization/gateway/circuit_breaker.go:102-106 | opening sets state, counter and deadline |
| Breaker.RunKeepsInv | internal/desensitization/gateway/circuit_breaker.go:55-106 | whenever the lock is free: half-open implies a probe in flight, closed implies fewer failures than the threshold, open and half-open exactly the threshold |
| Breaker.NewBreaker | internal/desensitization/gateway/circuit_breaker.go:34-106 | every run of a new breaker keeps this, and to one probe at a time as long as no late success overtakes a probe |
| Breaker.EpisodeAdmitsOne | internal/desensitization/gateway/circuit_breaker.go:57-73 | a half-open episode admits exactly the one call that begins it |
| Breaker.HalfOpenEnds | internal/desensitization/gateway/circuit_breaker.go:79-99 | half-open never gets stuck: the end of a probe in flight closes or reopens |
| Breaker.ClosedCounts | internal/desensitization/gateway/circuit_breaker.go:87-98 | over every run of a new breaker, the counter of a closed circuit is the number of failed calls since the last successful one |
| Breaker.OpensExactly | internal/desensitization/gateway/circuit_breaker.go:51-106 | a closed circuit admits every call and opens exactly when that number reaches the threshold, or a left-behind probe fails |
| Breaker.OpenExactly | internal/desensitization/gateway/circuit_breaker.go:57-73 | an open circuit turns calls away exactly until one interval after the last trip, and then admits one as a probe |
| Breaker.StartsAreSpaced | internal/desensitization/gateway/circuit_breaker.go:51-106 | while no upstream call succeeds, starts keep one interval apart over every interleaving |
| Breaker.StormBound | internal/desensitization/gateway/circuit_breaker.go:51-106 | from the instant of opening at most D / interval calls start in D time units while none succeeds |
| Breaker.AloneUnlessOvertaken | internal/desensitization/gateway/circuit_breaker.go:79-99 | the one step that leaves a probe behind outside the half-open state is the success of an older call while the probe is out |
| Breaker.RunKeepsAlone | internal/desensitization/gateway/circuit_breaker.go:57-99 | over every run without such a step, whatever else succeeds or fails, at most one probe is in flight |
| Breaker.OneProbeExactly | internal/desensitization/gateway/circuit_breaker.go:57-99 | from any state, all runs without such a step keep to one probe if and only if no probe was left behind, alone or beside another |
| Breaker.OvertakingDecides | internal/desensitization/gateway/circuit_breaker.go:96-98 | after such a step, and after no other, some run without any more of them has two probes in flight |
| Breaker.LateSuccessLetsProbesMeet | internal/desensitization/gateway/circuit_breaker.go:96-98 | a concrete run of a new breaker in which a late success lets two probes be in flight |
| Outbox.OutboxProcessor.Process | internal/rag/corpus/outbox.go:47-80 | index, mark and result for every kind of event and failure; a failed event leaves the index as it was |
| Outbox.Reconciler.Report | internal/rag/corpus/outbox.go:155-174 | a finding is counted, then its event enqueued |
| Outbox.Reconciler.ReportChunks | internal/rag/corpus/outbox.go:151-175 | the loop over authority chunks, up to the first refused event |
| Outbox.Reconciler.ReportOrphans | internal/rag/corpus/outbox.go:176-183 | the loop over derived chunks, up to the first refused event |
| Outbox.Reconciler.Reconcile | internal/rag/corpus/outbox.go:132-185 | counters, enqueued events and error for the two listings: a listing that fails ends it, otherwise it is complete or goes up to the event refused |
| Outbox.ReconcileAccounting | internal/rag/corpus/outbox.go:150-184 | the three counters add up to the number of events and to the number of disagreeing ids |
| Outbox.CountersByClass | internal/rag/corpus/outbox.go:150-184 | each counter is the number of ids of its kind: live and missing, live in the wrong state, indexed and not live |
| Outbox.PlanExact | internal/rag/corpus/outbox.go:150-184 | events name exactly the disagreeing ids, deletions only ids that are not live |
| Outbox.PlanByKind | internal/rag/corpus/outbox.go:150-184 | live chunks are ordered to be rebuilt, others to be deleted, and no id gets two orders |
| Outbox.OneDelivery | internal/rag/corpus/outbox.go:47-80 | a proper event never spoils an id, repairs its own on success, and changes nothing on failure |
| Outbox.DeliveryExactly | internal/rag/corpus/outbox.go:47-101 | exactly when a delivery succeeds; then it writes the chunk with its text and state, protected identifiers as tokens and the embedded vector, or removes it, and touches no other |
| Outbox.DisagreementShrinks | internal/rag/corpus/outbox.go:47-80 | processing a proper event never adds a disagreement |
| Outbox.ReconcileConverges | internal/rag/corpus/outbox.go:132-185 | after the processor was handed the events in any order, under any ids, with duplicates and failures, each succeeding once, the index agrees and a second reconciliation enqueues nothing |
| Outbox.ReconcileCarries | internal/rag/corpus/outbox.go:132-185 | every chunk ordered to be rebuilt is in the end in the index with all its content, protected identifiers as tokens only |
| Outbox.Rebuilder.RebuildOne | internal/rag/corpus/outbox.go:212-227 | one chunk: deleted, or embedded, projected and stored, or the error in which delivering a rebuild event for it would end |
| Outbox.Rebuilder.RebuildAll | internal/rag/corpus/outbox.go:203-230 | a rebuild is the delivery of one rebuild event per chunk, with both counters, up to the first error, which it returns; a listing that fails ends it |
| Outbox.RebuildAgrees | internal/rag/corpus/outbox.go:203-230 | after a rebuild without error the index agrees if and only if it held no chunk unknown to the authority |
| Outbox.RebuildCarries | internal/rag/corpus/outbox.go:203-230 | after a rebuild without error so is every live chunk |
| Outbox.TrimSpaceSplits | internal/rag/corpus/outbox.go:314-323 | trimming takes white space off both ends, all of it and nothing else |
| Outbox.DowngradeOrder | internal/rag/corpus/outbox.go:308-327 | the two events of a downgrade leave a live chunk as the authority has it in the planned order, whatever the payload announces, and missing in the other |
| ConfigService.MemoryStore.SaveWithAudit | internal/llm/config/store.go:87-93 | one entry written, one audit appended |
| ConfigService.MemoryStore.SetCurrent | internal/llm/config/store.go:67-78 | exactly the named config is marked current, or not found |
| ConfigService.MemoryStore.SaveAndSetCurrentWithAudit | internal/llm/config/store.go:95-108 | entry written, mark moved to it alone, one audit; nothing when not found |
| ConfigService.Service.CreateConfig | internal/llm/config/service.go:35-58 | state and result of a creation under every answer |
| ConfigService.Service.UpdateConfig | internal/llm/config/service.go:76-122 | state and result of an update, compensation included |
| ConfigService.Service.UpdateCurrent | internal/llm/config/service.go:101-115 | sync, probe and save of a changed current config, with the restoring sync |
| ConfigService.Service.RestoreModelConfig | internal/llm/config/service.go:258-263 | the restoring sync writes the previous entry and leaves the cause as the error; when it fails, the proxy stays and its error is joined to the cause |
| ConfigService.Service.SetEnabled | internal/llm/config/service.go:128-155 | enabling, and disabling unless current |
| ConfigService.Service.SwitchCurrent | internal/llm/config/service.go:162-184 | state and result of a switch under every answer |
| ConfigService.Service.ProbeConfig | internal/llm/config/service.go:186-208 | the probe's answer saved with one audit |
| ConfigService.AuditPerMutation | internal/llm/config/service.go:35-208 | a success leaves exactly one audit and touches no other entry but for the mark; a failure leaves the store as it was |
| ConfigService.SuccessExactly | internal/llm/config/service.go:35-223 | exactly when each operation succeeds |
| ConfigService.RefusedBecause | internal/llm/config/service.go:35-208 | with which error one is refused before anything is tried |
| ConfigService.SuccessWrites | internal/llm/config/service.go:35-208 | what each successful operation leaves in every field of its config, and the action it is recorded as |
| ConfigService.ProxyExactly | internal/llm/config/service.go:76-263 | which proxy entry an operation changes, and to the fields of which config |
| ConfigService.CurrentAfter | internal/llm/config/service.go:128-208 | only a successful switch moves the mark |
| ConfigService.RunKeepsSingle | internal/llm/config/store.go:87-108 | in every reachable state at most one config is current, it is enabled, there is one once there was one, and audits count successes |
| ConfigService.AgreementAfter | internal/llm/config/service.go:76-184 | from any state, proxy and store agree on the current config after an operation if and only if it wrote the entry anew, or they agreed before and no restoring sync failed |
| ConfigService.PerformKeepsAgreement | internal/llm/config/service.go:76-122 | from agreement, they agree afterwards if and only if no restoring sync failed |
| ConfigService.RunAgreement | internal/llm/config/service.go:76-263 | over every run from agreement, they disagree at its end if and only if some restoring sync failed and no operation since has written the entry anew |
| Limiter.WindowLoginFailureLimiter.Blocked | internal/auth/limiter.go:35-50 | the answer, the reset at expiry, other keys untouched |
| Limiter.WindowLoginFailureLimiter.RecordFailure | internal/auth/limiter.go:52-71 | the pruning loop, the block at the threshold, other keys untouched |
| Limiter.WindowLoginFailureLimiter.RecordSuccess | internal/auth/limiter.go:73-79 | the key is free again, other keys untouched |
| Limiter.Authenticator.Authenticate | internal/auth/authenticator.go:26-57 | outcome, slot of the key and audit trail of an attempt: refused exactly when the key is blocked, whatever the credentials, logged in only with right ones |
| Limiter.Authenticator.RecordFailure | internal/auth/authenticator.go:59-80 | a failure is recorded and audited, and audited once more when it blocks |
| Limiter.LoginBound | internal/auth/limiter.go:35-79 | from any state, a half-open interval of one window in which no login succeeds holds no more recorded failures than the threshold; right passwords refused on a blocked key are no success |
| Limiter.LockoutExactly | internal/auth/limiter.go:35-79 | an attempt is refused if and only if the last failure since the last success or lifted lock filled the threshold within its window and one window from it is not over; and what each attempt is recorded as |
| Limiter.LockoutEnds | internal/auth/limiter.go:44-49 | one window after the last failure nothing is refused and right credentials free the key |
| Limiter.NoEarlyLockout | internal/auth/limiter.go:52-71 | nobody is refused before the threshold of wrong attempts |
| Limiter.DefaultLimits | internal/auth/limiter.go:88-100 | five failures in fifteen minutes unless configured otherwise |
| Limiter.PruningIsInvisible | internal/auth/limiter.go:52-71 | over any calls on a forward clock, dropping stale timestamps never changes an answer |
| StreamPump.RunKeepsInv | internal/draft/highfreq_orchestrator.go:222-263 | the pump's invariant under every schedule of producer, consumer and cancellation |
| StreamPump.ConsumerView | internal/draft/highfreq_orchestrator.go:222-272 | the consumer sees a contiguous prefix, perhaps one cancellation error after it, nothing after a terminal event, metadata first, at most one event put out after cancellation |
| StreamPump.ReceivedMeans | internal/draft/highfreq_orchestrator.go:265-291 | each event received is the upstream event at its place, with metadata exactly on the first and on terminal ones, or the cancellation, a timeout error with metadata |
| StreamPump.CancellationIsSeen | internal/draft/highfreq_orchestrator.go:228-246 | a cancellation that comes while no event is being put out is never lost and lets no further event out |
| StreamPump.CancellationWhileSending | internal/draft/highfreq_orchestrator.go:250-258 | while one is being put out, only that one can still go out, and the cancellation follows unless it is terminal |
| StreamPump.FinalView | internal/draft/highfreq_orchestrator.go:222-263 | once closed and drained: exactly all that was read, up to a terminal event or the upstream's end; or all but at most the last two events read, and then the cancellation error |
| StreamPump.CancellationEnds | internal/draft/highfreq_orchestrator.go:316-328 | over every run from there, the loop that makes room for the cancellation event takes at most three steps of the producer, never gets stuck before, and ends with the event put out |

## Left out

- Regular expressions, the Aho-Corasick automaton and the NER wire format: recognizers are arbitrary hits that report the text of their span.
- Byte strings that are not valid UTF-8: text is a sequence of code points, offsets and lengths count UTF-8 bytes, and a span boundary inside a code point (which the recognizers exclude) would be rounded up.
- Mapper.PlaceholderMapper.InternHit: entity types are the nine the recognizers produce; other type strings, which `strings.ToUpper` could confuse, are not modelled.
- TailBuffer.StreamEqualsBatch: compares with the restoration of the whole text, so no event follows Done; `TailBuffer.AnswersEqualBatches` is for streams in which events do.
- Decorator: SQL stores and their errors, JSON of audit payloads (actor, request, level, event, reason and number of matches are kept), and model parameters; an error event carries one reason, whether the program reads it from its error value or from its reason field.
- Decorator.OutboundConfinement: one snapshot of the config store serves a whole request; configs changing between the two decisions are not modelled.
- Breaker: contents of the NER answers and the error values passed through.
- Outbox: SQL, Milvus and embedding clients; events of reconciliation and rebuild carry no payload; the derived index is a map with upsert and delete, embedded vectors stay real numbers, and the salted hash is a parameter.
- Outbox: rebuilding from original documents (`FullRebuilder`) and the ingest service.
- ConfigService: operations run one after the other, timestamps and audit details are dropped, new ids are fresh, and a failing sync or save changes nothing.
- Limiter: login keys are given, as normalizing user names is left out; attempts on one key run one after the other.
- StreamPump: contents of the metadata, and errors before the stream starts.
- HTTP handlers, authorization rules, document types, prompts, retrieval and the frontend.
