# ControlForge: a verified model of its detection, audit, collection and response logic

ControlForge collects security telemetry from managed Macs, evaluates Sigma rules and stateful
correlations over it, aggregates alerts into cases, and runs approved response actions such as
network containment. This project models the parts of it in which correctness depends on several
functions, several steps or several concurrent requests, and proves what each part is for.

`dafny verify dfyconfig.toml` checks everything. Each file is one module.

| module | models |
|---|---|
| `SigmaLexer`, `SigmaGrammar`, `SigmaSelections`, `SigmaEvaluator` | the Sigma condition language: tokenizer, grammar, selections, and the evaluator that parses and evaluates in one pass |
| `StatefulDetectors`, `StatefulAgreement` | the four streaming detectors, the evaluation over stored history, and when they agree |
| `CanonicalJson` | the canonical JSON printer behind digests, with a parser that inverts it |
| `AddressBits`, `CidrMatching` | IP address parsing and prefix masks |
| `AuditChain` | the HMAC-chained audit log: `append` and what `verify` establishes |
| `SantaReader`, `AgentSpool`, `CollectorRun` | the log reader, the durable spool, and the collection pipeline with crashes |
| `CredentialRotation` | endpoint credential rotation between control plane, keychain, spool and agent, with crashes |
| `PfContainment` | the macOS packet-filter containment adapter under fault injection |
| `EventIngestion` | idempotent ingestion under races |
| `AlertCases`, `CaseWorkflow`, `ResponseActions` | alert and case aggregation, case status changes, two-person response approval, all as interleaved statements |
| `EndpointAccounts` | sign-in, first-password change, reset and enrollment grants as racing requests |
| `Results` | the shared `Option` and `Result` types |

Where the source updates fields or loops over an accumulator, the model is a class or a method with a
loop, proved against a specification function; what the source promises is then proved about that
function. Where requests interleave or a process may crash, the model is a state machine whose steps
are the atomic statements, and the results hold for every run.

## Where the code does not do what one would expect

These are results of the model; in each case the code is modelled as it is, an input is given, and the
condition under which the expectation does hold is proved.

- Streaming detectors and stored evaluation differ on accesses without `bytes`, on logins without
  coordinates, on session uses without a source and on logins at equal times
  (`StatefulAgreement.MissingBytesDisagree`, `UnlocatedLoginDisagrees`, `SourcelessUseDisagrees`,
  `TiedLoginsDisagree`); `StreamingAgrees` says exactly what streaming computes instead on ordered
  streams, `StreamingLooksAtTheLast` what it makes of logins and session uses on all others, and
  `CompleteStreamsAgree` when the two coincide.
- Cutting off the newest audit entries together with their checkpoints is not found by `verify`
  (`AuditChain.VerifyEstablishes` is an equivalence, and a prefix is what it yields).
- An agent that notes a credential rotation and returns only after its delivery window has a spool
  record that nothing ever clears, so it never rotates again (`CredentialRotation.LateAgentGoesStale`,
  `StaleIsReachable`, `StaleForever`). In every run a record can be cleared if and only if its rotation is
  acknowledged, or is delivered and its replacement is in the keychain or about to be, or the window is
  open and the envelope is received or may be delivered once more (`RecordClearsExactly`); with no record a
  rotation completes (`RotationCompletes`).
- A case can end up with a lower priority than an alert linked to it if a rule's severity drops between
  two passes over one event (`AlertCases.DroppedSeverityIsNotCovered`); `LinkCovers` gives the exact
  condition for one link, `PriorityCoversAlerts` the promise for rules of steady severity.
- The update of `transitionCase` compares the status only, so a delayed close can take effect after
  another close and a reopening, without a new disposition (`CaseWorkflow.SplitCloseCanBeStale`). It also
  writes back the `disposition_required_after` that was read, so a delayed step to investigating can erase
  the mark of a reopening, after which even an undelayed close needs no new disposition
  (`DelayedMoveErasesTheMark`). A close is fresh if and only if there is a disposition since the last
  reopening in the audit trail (`CloseIsFreshExactly`), a write keeps all marks right if and only if it
  does not put back an old one (`WriteIsFreshExactly`), and runs without such writes have fresh closes
  only (`ClosesHaveDispositions`).
- The update that follows a device's listing also marks actions on identities or indicators of the same
  name as dispatched (`ResponseActions.DispatchReachesIdentities`). It marks only actions on the device if
  and only if no approved action on something else goes by that name (`MarksOnlyTheDeviceExactly`), and a
  dispatched action can still complete if and only if it is one on a device (`CompletesExactly`).

## Model

| member | source | states |
|---|---|---|
| SigmaLexer.Tokenize | src/controlforge/detections.py:430-445 | the scanning loop computes the token list, or the error at the first place where nothing matches; a text without tokens is an error |
| SigmaLexer.LexesExactly | src/controlforge/detections.py:315-324 | a condition lexes exactly if every character can occur in a token or is white space, and one is not white space |
| SigmaLexer.ScanConserves | src/controlforge/detections.py:430-445 | up to white space and keyword case, the tokens spell the text: nothing is dropped, added or reordered |
| SigmaLexer.TokenBeforeSeparator | src/controlforge/detections.py:315-324 | text that follows a token after a space does not change how the token lexes |
| SigmaLexer.ScanOfSpaced | src/controlforge/detections.py:430-445 | printing a token list with single spaces and lexing it again is the identity |
| SigmaLexer.StripsEnds | src/controlforge/detections.py:453-454 | stripping a name removes the white space at both ends and nothing else |
| SigmaLexer.LexableAscii | src/controlforge/detections.py:315-324 | in printable ASCII exactly letters, digits, `_`, `*`, `?`, `-`, parentheses and the space can be lexed |
| SigmaLexer.WordsLex | src/controlforge/detections.py:430-445 | a keyword in any case is that keyword, and every other run of name characters is a name that keeps its case, unless it starts with a keyword before `*`, `?` or `-` |
| SigmaGrammar.ParsesExactly | src/controlforge/detections.py:365-428 | the parser accepts exactly the token lists of the or/and/not/primary grammar, and yields the only derivation |
| SigmaGrammar.PrecedenceByName | src/controlforge/detections.py:395-423 | `not` binds tighter than `and`, and `and` tighter than `or`, with the tokens by name; parentheses override |
| SigmaGrammar.ConnectivesAssociateLeft | src/controlforge/detections.py:403-423 | chains of `and` and of `or` group to the left |
| SigmaGrammar.PrintedTree | src/controlforge/detections.py:395-428 | the printed form of a condition is a derivation of the grammar at every level and means that condition |
| SigmaGrammar.FewestParentheses | src/controlforge/detections.py:365-428 | no derivation of the same condition has fewer parentheses than the printed one, in any context |
| SigmaGrammar.PrintParseRoundTrip | src/controlforge/detections.py:395-445 | printing any condition over names that lex as one token, tokenizing and parsing gives back the same left-associated tree |
| SigmaSelections.MatchMapping | src/controlforge/detections.py:491-501 | the loop over criteria stops at the first malformed or failing one, and otherwise cites all of them |
| SigmaSelections.EvaluateNamed | src/controlforge/detections.py:473-489 | the loop over branches returns the first satisfied one, and an error for unknown names and branches that are no mappings |
| SigmaSelections.EvaluateAny | src/controlforge/detections.py:447-457 | the first matching name decides; errors of earlier names are raised |
| SigmaSelections.EvaluateAll | src/controlforge/detections.py:459-471 | all names must match, their reasons are concatenated, and no names at all do not match |
| SigmaSelections.CriteriaMeaning | src/controlforge/detections.py:491-501 | a mapping matches exactly if all of its criteria hold, and then cites exactly those, in order |
| SigmaSelections.ExpressionsSplit | src/controlforge/detections.py:503-509 | a field alone is compared for equality; a field, a bar and one of the five modifiers is that field under that modifier; any other modifier is an error |
| SigmaSelections.CriterionMatches | src/controlforge/detections.py:491-531 | a criterion matches exactly if some value of its field compares with some expected value under its operator; direct fields win over attributes and a missing field is empty |
| SigmaSelections.CitationsAreShort | src/controlforge/detections.py:556-558 | a reason names its expression and shows at most 80 characters of the expected value |
| SigmaSelections.FirstReasons | src/controlforge/detections.py:447-489 | the first branch or name that holds gives the reasons |
| SigmaSelections.AllReasons | src/controlforge/detections.py:459-471 | `all of` concatenates the reasons of its selections |
| SigmaSelections.NamedMeaning | src/controlforge/detections.py:473-501 | a selection matches exactly if one of its branches holds; without a match there are no reasons, and every reason cites a criterion of a branch that holds |
| SigmaSelections.AnyMeaning | src/controlforge/detections.py:447-457 | `1 of` matches exactly if some candidate holds, with reasons supported by a candidate |
| SigmaSelections.AllMeaning | src/controlforge/detections.py:459-471 | `all of` matches exactly if every candidate holds, with reasons supported by candidates |
| SigmaSelections.NamesSucceed | src/controlforge/detections.py:447-510 | nothing is raised on selections that are defined and well formed |
| SigmaEvaluator.ConditionEvaluator.ParsePrimary | src/controlforge/detections.py:365-393 | evaluating while parsing gives the outcome of the tree that parsing alone finds at the shared position, and stops behind it |
| SigmaEvaluator.ConditionEvaluator.EvaluateAtom | src/controlforge/detections.py:379-393 | a symbol is a quantifier over the matching selections or the name of one |
| SigmaEvaluator.ConditionEvaluator.ParseNot | src/controlforge/detections.py:395-401 | the same for negations, which drop the reasons |
| SigmaEvaluator.ConditionEvaluator.ParseAnd | src/controlforge/detections.py:403-413 | the same for the conjunction loop, which does not short-circuit |
| SigmaEvaluator.ConditionEvaluator.ParseOr | src/controlforge/detections.py:415-423 | the same for the disjunction loop, which keeps the reasons of the first match |
| SigmaEvaluator.EvaluateCondition | src/controlforge/detections.py:353-428 | the fused evaluator succeeds exactly on texts whose tokens are derivable and whose tree evaluates, with the outcome of the tree; it terminates |
| SigmaEvaluator.EvalMeaning | src/controlforge/detections.py:395-428 | the verdict is the boolean meaning of the condition; an unmatched result has no reasons; every reason cites a criterion that holds, found through an atom outside every negation |
| SigmaEvaluator.QuantifiersByName | src/controlforge/detections.py:379-393 | `1 of` needs one matching selection that holds, `all of` all of them and at least one; a plain name is itself |
| SigmaEvaluator.ReasonsByName | src/controlforge/detections.py:395-423 | a conjunction carries both sides' reasons, a disjunction those of the first side that holds, a negation none |
| SigmaEvaluator.EvalSucceeds | src/controlforge/detections.py:353-501 | evaluation succeeds if every selection the condition consults is defined and well formed |
| SigmaEvaluator.ConditionMeaning | src/controlforge/detections.py:353-501 | the whole promise for a text whose tokens are the yield of a tree: it parses to that tree and evaluates to its meaning with sound evidence |
| StatefulDetectors.PopOld | src/controlforge/detections.py:588-590 | the deque loop removes the old samples from the front |
| StatefulDetectors.DropIsFilter | src/controlforge/detections.py:588-590 | on a queue in time order, popping from the front keeps exactly the samples of the window |
| StatefulDetectors.DropTwice | src/controlforge/detections.py:575-612 | popping at every event leaves the same queue as popping once at the latest cutoff |
| StatefulDetectors.TotalOfParts | src/controlforge/detections.py:592-592 | the total is the sum of the amounts, however the queue is cut |
| StatefulDetectors.AccountsGrow | src/controlforge/detections.py:692-726 | an account counts once up to case folding |
| StatefulDetectors.NewestStays | src/controlforge/detections.py:588-590 | the newest sample stays, and the oldest one left is within the window |
| StatefulDetectors.BulkAccessDetector.Evaluate | src/controlforge/detections.py:575-612 | the event joins its actor's queue unless its size is no number; it alerts exactly if the queue holds enough events or enough bytes, with that count and total |
| StatefulDetectors.CredentialStuffingDetector.Evaluate | src/controlforge/detections.py:692-726 | the failure joins its source's queue; it alerts exactly if the queue holds enough failures of enough accounts, with those counts |
| StatefulDetectors.ImpossibleTravelDetector.Evaluate | src/controlforge/detections.py:621-664 | a located login replaces the actor's last one; it alerts exactly if that one is earlier and the speed between them is above the limit, with speed, distance and hours |
| StatefulDetectors.SessionReplayDetector.Evaluate | src/controlforge/detections.py:735-770 | a session use replaces the session's last one; it alerts exactly on another source within the window after it |
| StatefulDetectors.Pipeline.Evaluate | src/controlforge/detections.py:1021-1033 | the four detectors together change the memory and raise the alert of the event's correlation |
| StatefulDetectors.RunStream | src/controlforge/detections.py:1021-1033 | over a stream, each alert is that of the memory after the events before it |
| StatefulAgreement.BulkAgrees | src/controlforge/detections.py:575-612 | for non-decreasing times per actor, bulk access has the same verdict, count and total in both evaluations |
| StatefulAgreement.StuffingAgrees | src/controlforge/detections.py:692-726 | for non-decreasing times per source, credential stuffing has the same verdict and counts in both |
| StatefulAgreement.TravelAgrees | src/controlforge/detections.py:621-664 | for increasing login times per actor, impossible travel agrees |
| StatefulAgreement.ReplayAgrees | src/controlforge/detections.py:735-770 | for increasing times per session, session replay agrees |
| StatefulAgreement.StreamingAgrees | src/controlforge/detections.py:792-979 | on every ordered stream with distinct ids, streaming raises the alert of the stored evaluation, with missing `bytes` as zero and without logins that have no coordinates and session uses that have no source |
| StatefulAgreement.CompleteStreamsAgree | src/controlforge/detections.py:792-979 | on complete events the two evaluations agree as they stand |
| StatefulAgreement.StreamingLooksAtTheLast | src/controlforge/detections.py:621-770 | on every stream, ordered or not, streaming judges a login or session use against the last one of its key in arrival order, and raises nothing if that one is not earlier |
| StatefulAgreement.SourcelessUseDisagrees | src/controlforge/detections.py:953-979 | a session use without a source that hides an earlier one from the stored evaluation only |
| StatefulAgreement.MissingBytesDisagree | src/controlforge/detections.py:575-580 | an access without `bytes` that streaming counts and stored evaluation ignores |
| StatefulAgreement.UnlocatedLoginDisagrees | src/controlforge/detections.py:865-890 | a login without coordinates that hides an earlier one from the stored evaluation only |
| StatefulAgreement.TiedLoginsDisagree | src/controlforge/detections.py:865-890 | logins at one time on which the two differ |
| CanonicalJson.SortSorts | cloud/src/sigma.ts:132-134 | key sorting yields the same keys in code-unit order |
| CanonicalJson.SortedUnique | cloud/src/sigma.ts:132-134 | sorted lists of the same distinct keys are equal |
| CanonicalJson.TextReadsBack | cloud/src/sigma.ts:121-124 | a quoted string, with its escapes, reads back as the string (section 7 of RFC 8259) |
| CanonicalJson.NumberReadsBack | cloud/src/sigma.ts:125-128 | a printed integer reads back as the integer |
| CanonicalJson.LessByUnits | cloud/src/sigma.ts:132-134 | keys are compared unit by unit, and a prefix comes first |
| CanonicalJson.WordsByName | cloud/src/sigma.ts:121-135 | the texts of null, the booleans, empty strings, arrays and objects, and some numbers |
| CanonicalJson.EscapesByName | cloud/src/sigma.ts:121-124 | exactly control characters, quotes, backslashes and lone surrogates are escaped (section 7 of RFC 8259) |
| CanonicalJson.ShortEscapesByName | cloud/src/sigma.ts:121-124 | the seven short escapes |
| CanonicalJson.LongEscapesByName | cloud/src/sigma.ts:121-124 | the others have four lower-case hexadecimal digits |
| CanonicalJson.ArraysByName | cloud/src/sigma.ts:129-129 | items are separated by commas and nothing else |
| CanonicalJson.ObjectsByName | cloud/src/sigma.ts:131-134 | fields are a key, a colon and a value, separated by commas, in the order of their keys |
| CanonicalJson.RenderReadsBack | cloud/src/sigma.ts:121-135 | the parser inverts the printer on every value, whatever follows that does not continue a number |
| CanonicalJson.MeaningDeterminesText | cloud/src/repository.ts:14-19 | equal JSON values print alike, whatever order their keys were added in |
| CanonicalJson.CanonicalIdentifies | cloud/src/sigma.ts:121-135 | two values print alike exactly if they are equal as JSON values |
| CanonicalJson.DigestIdentifies | cloud/src/repository.ts:90-101 | under a collision-free hash, equal digests of canonical payloads mean equal JSON values, and conversely |
| AddressBits.OrShifted | cloud/src/sigma.ts:264-293 | the shift-and-or of the accumulators is multiplication and addition |
| AddressBits.MaskValue | cloud/src/sigma.ts:305-307 | the exclusive or of two runs of ones is the mask of the prefix |
| AddressBits.MaskComparesQuotients | cloud/src/sigma.ts:305-307 | addresses agree under the mask exactly if their quotients by 2^(bits-prefix) agree (section 3.1 of RFC 4632) |
| AddressBits.ShorterPrefixAgrees | cloud/src/sigma.ts:305-307 | agreement at one prefix implies agreement at every shorter one |
| CidrMatching.ParseIpv4 | cloud/src/sigma.ts:264-275 | the loop computes the positional value of four octets, or nothing |
| CidrMatching.Ipv4ParsesExactly | cloud/src/sigma.ts:264-275 | exactly the dotted quads of octets parse, to the usual value |
| CidrMatching.ParseIpv6 | cloud/src/sigma.ts:277-293 | the loop computes the positional value of the eight groups after filling in the elision, or nothing |
| CidrMatching.Ipv6ParsesExactly | cloud/src/sigma.ts:277-293 | exactly the texts of eight groups, or fewer around one elision, parse, with zeros for what is elided (section 2.2 of RFC 4291) |
| CidrMatching.ElisionKeepsTheAddress | cloud/src/sigma.ts:277-293 | eliding any one run of zero groups leaves the value the same |
| CidrMatching.OctetsByName | cloud/src/sigma.ts:264-275 | the numbers up to 255 are octets |
| CidrMatching.LeadingZeros | cloud/src/sigma.ts:264-275 | a leading zero does not change an octet |
| CidrMatching.HexByName | cloud/src/sigma.ts:288-292 | the hexadecimal digits in both cases, and what is none |
| CidrMatching.GroupsGrow | cloud/src/sigma.ts:288-292 | a further digit multiplies a group by sixteen |
| CidrMatching.LoopbackByName | cloud/src/sigma.ts:277-293 | `::1` is one |
| CidrMatching.FamiliesAreApart | cloud/src/sigma.ts:264-293 | no text is an address of both families |
| CidrMatching.CidrMatches | cloud/src/sigma.ts:295-308 | the masked comparison decides whether both addresses are of one family and in the same block |
| CidrMatching.NetworkMeaning | cloud/src/sigma.ts:295-308 | what `address/prefix` means for every address text and prefix length |
| CidrMatching.ShorterPrefixesMatch | cloud/src/sigma.ts:295-308 | an address in a network is in every larger network around it |
| CidrMatching.ExtremePrefixes | cloud/src/sigma.ts:295-308 | the longest prefix admits exactly the network address, prefix zero its whole family |
| AuditChain.AuditLog.PreviousMac | src/controlforge/standalone/audit.py:60-183 | the query finds the MAC of the tenant's last append |
| AuditChain.AuditLog.Append | src/controlforge/standalone/audit.py:60-183 | one entry chained to the tenant's last MAC and its checkpoint are added to an honest history, or an error and no row: exactly on an empty field or one over 256 characters, then on a payload that is no object or over 64 KB |
| AuditChain.Utf8LengthAdds | src/controlforge/standalone/audit.py:96-97 | the size of a payload in bytes adds up, and is its length for ASCII |
| AuditChain.Verify | src/controlforge/standalone/audit.py:185-275 | accepts exactly the tables whose rows and checkpoints all check, and otherwise reports the first offending row, or the count of checkpoints if all rows check |
| AuditChain.AcceptedIsPrefix | src/controlforge/standalone/audit.py:185-330 | tables that verify, with MACs issued by `append` or made without the key and distinct checkpoint ids, are an exact prefix of the appends, numbers included |
| AuditChain.PrefixIsAccepted | src/controlforge/standalone/audit.py:185-275 | every prefix of a tenant's appends verifies, whatever other tenants appended in between |
| AuditChain.VerifyEstablishes | src/controlforge/standalone/audit.py:185-330 | tables verify if and only if they are some prefix of the tenant's appends |
| AuditChain.HonestRunVerifies | src/controlforge/standalone/audit.py:60-275 | every run of interleaved multi-tenant appends verifies |
| SantaReader.Read | src/controlforge/santa.py:110-166 | the reading loop with its four stopping conditions computes the batch and the next cursor from the saved one |
| SantaReader.ReadIsExact | src/controlforge/santa.py:110-166 | from a line boundary, a batch holds exactly the events up to the returned cursor, which is a line boundary |
| SantaReader.ReadProgresses | src/controlforge/santa.py:138-166 | if lines fit the limits, a read stands still only when no complete line is left |
| SantaReader.ReadWithinLimits | src/controlforge/santa.py:138-157 | a batch stays within the limits on events and bytes, and a line over its limit is refused |
| SantaReader.StartsByName | src/controlforge/santa.py:129-137 | the saved offset counts only for the same file, and only while the file still reaches it |
| SantaReader.EventsAppend | src/controlforge/santa.py:138-166 | the events of a log that continues after a line boundary are those of its two parts |
| SantaReader.ReadAllReadsOnce | src/controlforge/santa.py:110-166 | the batches of repeated reads concatenate to every complete line, parsed once |
| AgentSpool.Spool.Contains | src/controlforge/collector_agent.py:823-895 | whether a batch is still in the spool |
| AgentSpool.Spool.EnqueueCollected | src/controlforge/collector_agent.py:823-895 | the snapshot is enqueued exactly if it is the first, has changed, or its batch has left the spool and the interval is over, and then stands before the telemetry in one new row; telemetry is enqueued always |
| AgentSpool.Spool.AcknowledgeBatch | src/controlforge/collector_agent.py:927-937 | the batch leaves, and the snapshot record forgets it |
| AgentSpool.CoalescingHidesNoChange | src/controlforge/collector_agent.py:823-895 | over every run, the fingerprints enqueued and observed are equal after removing adjacent repeats |
| AgentSpool.DueSnapshotIsStored | src/controlforge/collector_agent.py:823-895 | a snapshot that is due is stored: one new row starts with all of its control events, and the record names that row |
| AgentSpool.ElapsedRepeatIsSent | src/controlforge/collector_agent.py:868-895 | an unchanged snapshot is sent again as soon as its batch has left the spool and the interval is over |
| AgentSpool.RepeatsWaitForDelivery | src/controlforge/collector_agent.py:823-937 | an adjacent repeat is enqueued only after the earlier batch left the spool and the interval elapsed |
| AgentSpool.TelemetryIsEnqueued | src/controlforge/collector_agent.py:823-895 | every telemetry event is in a batch after the call, and no batch is lost |
| CollectorRun.NothingIsLost | src/controlforge/collector_agent.py:1484-1513 | with crashes anywhere, the cursor is a line boundary and every event of the log before it is in the spool or was accepted |
| CollectorRun.DeliveredBatchLeaves | src/controlforge/collector_agent.py:1269-1297 | delivering and acknowledging a batch hands its events over and removes it, and only it |
| CollectorRun.SpooledExactlyOnce | src/controlforge/collector_agent.py:1484-1513 | unless a crash separates an enqueue from saving its cursor, the telemetry of the batches that the spool inserted concatenates to the log before the cursor, parsed once |
| CollectorRun.WholeLogSpooled | src/controlforge/collector_agent.py:1484-1513 | and once a read stands still on lines that fit, to the whole log up to its last complete line |
| CollectorRun.Flush | src/controlforge/collector_agent.py:1269-1297 | batches leave from the front, each only after it was accepted; the attempt fails exactly if a delivery failed, stops there, and only that batch may have been accepted without leaving; the cursor stays and the snapshot record forgets delivered batches |
| CredentialRotation.AcknowledgeDelivered | src/controlforge/standalone/credential_rotation.py:266-334 | acknowledging a delivered rotation retires the predecessor and leaves the replacement as the only active credential |
| CredentialRotation.AcknowledgeAgain | src/controlforge/standalone/credential_rotation.py:266-334 | a repeated acknowledgement is accepted and changes nothing |
| CredentialRotation.RunKeepsInv | src/controlforge/collector_agent.py:1183-1217 | in every reachable state there is one active credential and at most one live rotation, and keychain, spool and phase fit them |
| CredentialRotation.NeverLockedOut | src/controlforge/collector_agent.py:1183-1217 | after a crash at any point, the keychain pair is accepted for the step the agent takes next |
| CredentialRotation.RowsChange | src/controlforge/standalone/credential_rotation.py:53-391 | settled rotations never change, and one becomes settled only while the keychain holds its replacement |
| CredentialRotation.RetiredOnlyAfterSwap | deployment/macos/collector-wrapper.swift:123-178 | in every run, a predecessor is retired only when the keychain already holds its replacement |
| CredentialRotation.CredentialEndsOnlyAfterSwap | src/controlforge/standalone/credential_rotation.py:266-334 | in every run, a credential stops being active only while the keychain holds the replacement of a rotation from it |
| CredentialRotation.RecordClearsExactly | src/controlforge/collector_agent.py:1072-1217 | in every run, some continuation clears the spool record if and only if there is none, its rotation is acknowledged, or it is delivered and its replacement is in the keychain or about to be, or its window is open and the envelope is received or deliverable again; then some continuation completes the rotation |
| CredentialRotation.CancelsByName | src/controlforge/standalone/credential_rotation.py:336-391 | an administrator's cancellation takes effect exactly before the first delivery, and revokes the replacement |
| CredentialRotation.DeliveredAtMostTenTimes | src/controlforge/standalone/credential_rotation.py:200-201 | in every run, no envelope is delivered more than ten times |
| CredentialRotation.ExhaustedStays | src/controlforge/standalone/credential_rotation.py:166-264 | with the old pair in the keychain, a rotation past its window, or delivered as often as allowed with no copy of the envelope left, can only be cancelled, and its record stays |
| CredentialRotation.LateAgentGoesStale | src/controlforge/standalone/credential_rotation.py:191-197 | an agent with a recorded rotation and the old pair that polls after the window is left with the record of a cancelled rotation |
| CredentialRotation.RotationCompletes | src/controlforge/collector_agent.py:1183-1217 | without faults, a rotation on an agent with a clean record ends with the new pair alone active |
| CredentialRotation.StaleForever | src/controlforge/collector_agent.py:1088-1118 | once the spool remembers a cancelled rotation, no continuation clears the record or changes the keychain |
| CredentialRotation.StaleIsReachable | src/controlforge/standalone/credential_rotation.py:166-264 | a run that gets there: the agent notes a rotation, stops, the delivery window closes, and it polls |
| PfContainment.Adapter.ReleaseState | src/controlforge/macos_response.py:479-485 | what is held or loaded stays on record; it succeeds exactly if no call fails, and then leaves no anchor, token or state |
| PfContainment.Adapter.Rollback | src/controlforge/macos_response.py:497-507 | both commands are tried once; success means that neither failed, and then neither anchor nor token is left |
| PfContainment.Adapter.DiscardFailedState | src/controlforge/macos_response.py:509-517 | only state with the given token is removed |
| PfContainment.Adapter.PreserveFailedRollback | src/controlforge/macos_response.py:519-538 | existing state is kept, otherwise the recovery state is saved unless the store fails |
| PfContainment.Adapter.IsolateEndpoint | src/controlforge/macos_response.py:407-460 | running containment is left as it is, never extended; a token goes unrecorded only if, during the call, a flush or release failed and the store failed on reading or saving the recovery state; whatever it records, after success or failure, expires at the earlier of the action's expiry and 15 minutes; no token is lost from sight unless enabling failed |
| PfContainment.Adapter.Contain | src/controlforge/macos_response.py:425-460 | the same for enabling, loading, recording and rolling back; it succeeds exactly if no call fails |
| PfContainment.Adapter.Undo | src/controlforge/macos_response.py:441-448 | after the exception handler everything is on record, unless a rollback command and the read or write of the recovery state failed; without a failed rollback command neither the token nor the anchor is left |
| PfContainment.Adapter.ReleaseAll | src/controlforge/macos_response.py:462-477 | succeeds exactly if no call fails, and then leaves nothing; failure leaves everything on record |
| PfContainment.Adapter.ReleaseForRecovery | src/controlforge/macos_response.py:396-405 | the same behind the test of the environment, without which nothing changes |
| PfContainment.Adapter.Execute | src/controlforge/macos_response.py:351-361 | a wrong target, an expired action, an unsupported environment or an isolation by a disabled adapter changes nothing; otherwise it succeeds if no call fails; whatever an isolation records, even when it fails, expires by the action's expiry and within 15 minutes |
| PfContainment.Adapter.Reconcile | src/controlforge/macos_response.py:363-380 | before expiry nothing changes; a reconcile at or after expiry during which no call fails leaves no anchor, token or state, whatever failed before |
| PfContainment.Drive | src/controlforge/macos_response.py:351-538 | over any run in which commands fail arbitrarily, or else store calls do, what is held or loaded is on record with its token, at most one known token is held and every held token is known unless enabling failed, and the recorded expiry is min(action expiry, 15 minutes) of an isolation among the operations |
| EventIngestion.Normalize | cloud/src/repository.ts:103-115 | each identity once, with its count and the hash of all its submissions, or a conflict within the request |
| EventIngestion.ExistingHashes | cloud/src/repository.ts:63-80 | the chunked lookup finds every identity stored before it, with its hash |
| EventIngestion.SplitKnown | cloud/src/repository.ts:121-130 | every occurrence becomes a duplicate or stays with a candidate; a different stored hash is a conflict |
| EventIngestion.Tally | cloud/src/repository.ts:163-173 | per inserted row one acceptance and the rest duplicates; ignored rows are raced |
| EventIngestion.InsertAll | cloud/src/repository.ts:132-174 | batch by batch, occurrences balance, accepted identities are new and distinct, and all candidates are stored with their hash |
| EventIngestion.ResolveRaced | cloud/src/repository.ts:176-188 | raced identities become duplicates; their payload comparison never fails, since the insert refuses conflicting payloads |
| EventIngestion.PendingDuplicates | cloud/src/repository.ts:190-202 | every duplicate that is not processed at the end is among the pending ones |
| EventIngestion.EnqueueEventIds | cloud/src/repository.ts:207-226 | messages of at most 50 identities that flatten back to the list; all are appended to the queue, or exactly one send fails and some first ones are |
| EventIngestion.PersistEvents | cloud/src/repository.ts:82-205 | whatever other writers do: accepted and duplicate ids are together the submitted multiset, accepted ones are distinct and new, all are stored with the submitted hash, every id not processed is queued; errors exactly on oversized events and on identity conflicts, with nothing queued, and on a failed send, with everything stored |
| CaseWorkflow.AuditReplaysToStatus | cloud/src/case-workflow.ts:195-275 | under any interleaving, replaying a case's audited changes from open gives its status, along the seven edges only; it has a closing time exactly while closed; one case per semantic key is active |
| CaseWorkflow.EdgesByName | cloud/src/case-workflow.ts:188-193 | the seven allowed edges by name |
| CaseWorkflow.DispositionsByName | cloud/src/case-workflow.ts:206-219 | a disposition counts from the very time of the mark, for its own case only |
| CaseWorkflow.TimestampsTellFreshness | cloud/src/case-workflow.ts:205-219 | comparing timestamps finds a disposition exactly if one was recorded since the last reopening |
| CaseWorkflow.CloseIsFreshExactly | cloud/src/case-workflow.ts:205-248 | in every state with increasing times, all closes are fresh after a close takes effect if and only if they were before and there is a disposition since the last reopening in the audit trail |
| CaseWorkflow.OneMark | cloud/src/case-workflow.ts:229-248 | the only right value of `disposition_required_after` is the time of the last reopening in the audit trail |
| CaseWorkflow.WriteIsFreshExactly | cloud/src/case-workflow.ts:229-248 | from right marks and fresh closes, a write that takes effect keeps both if and only if it reopens or the mark it read is still in the row |
| CaseWorkflow.ClosesHaveDispositions | cloud/src/case-workflow.ts:195-275 | with increasing times and no write that puts back an old mark, every close has a disposition since the last reopening |
| CaseWorkflow.DelayedMoveErasesTheMark | cloud/src/case-workflow.ts:229-248 | an interleaving after which an undelayed close takes effect without a disposition since the last reopening |
| CaseWorkflow.SplitCloseCanBeStale | cloud/src/case-workflow.ts:230-248 | an interleaving in which a close takes effect without one |
| CaseWorkflow.CaseDesk.AppendDisposition | cloud/src/case-workflow.ts:75-128 | one disposition row for an existing case, otherwise an error |
| CaseWorkflow.CaseDesk.TransitionCase | cloud/src/case-workflow.ts:195-275 | run atomically, it closes exactly with a disposition since the last reopening and reopens exactly if the semantic key is free; each error exactly in its case and then without effect; the new row has the right closing time and mark |
| AlertCases.LinkTables | cloud/src/repository.ts:326-350 | the last batch keeps every alert in at most one case, of its rule and entity and of at least the severity it came with |
| AlertCases.RunKeepsInv | cloud/src/repository.ts:245-362 | every statement of every processor keeps the tables and all other processors right |
| AlertCases.EveryRun | cloud/src/index.ts:897-909 | over all runs: one alert per rule and event, at most one case per alert, one active case per semantic key, and every alert of the pass after which an event was marked processed is stored and linked |
| AlertCases.NothingReverts | cloud/src/repository.ts:326-362 | a processed event stays so after the same pass, a case keeps its key, and its priority never falls |
| AlertCases.CasesByName | cloud/src/repository.ts:251-254 | in every run, a linked alert's case is one for its rule and for the device of its event or else its actor, and at least as urgent as the alert found with the link |
| AlertCases.MovesByName | cloud/src/case-workflow.ts:221-265 | an analyst's allowed step takes effect unless it reopens a case whose key another active case has |
| AlertCases.ProcessingCompletes | cloud/src/index.ts:897-909 | from every reachable state, a processor that begins on an unprocessed event and is left undisturbed marks it processed with every alert of its pass stored and linked |
| AlertCases.LinkCovers | cloud/src/repository.ts:326-350 | a link leaves cases at their alerts' priority exactly if the stored severity is at most the case's priority or the severity just found |
| AlertCases.PriorityCoversAlerts | cloud/src/repository.ts:238-350 | if passes agree on severities, no case has a lower priority than a linked alert |
| AlertCases.UrgencyByName | cloud/src/repository.ts:238-350 | the same with severities and priorities by name |
| AlertCases.PrioritiesByName | cloud/src/repository.ts:238-243 | the priority of each severity, and raising to the higher of two |
| AlertCases.DroppedSeverityIsNotCovered | cloud/src/repository.ts:245-350 | a run in which a critical alert ends up in a case of low priority |
| ResponseActions.EveryRun | cloud/src/index.ts:721-895 | under any interleaving: an action beyond read-only is approved, dispatched or completed only if another principal approved it before expiry; results come only from the targeted device; deliveries were meant for the device, authorized and unexpired; the audit rows are exactly those the row accounts for |
| ResponseActions.TwoPersonsByName | cloud/src/index.ts:721-830 | in every run, whatever isolates or releases an endpoint, disables an identity or revokes sessions was approved, on audit, by another principal than its proposer and before expiry; every kind is aimed at its kind of target |
| ResponseActions.ProposalsByName | cloud/src/index.ts:730-778 | only the two read-only kinds are approved at once, by policy; the others await a decision and need the capability |
| ResponseActions.DecisionsByName | cloud/src/index.ts:781-838 | a decision takes effect if and only if another principal makes it before expiry on a proposed action |
| ResponseActions.DeviceCompletes | cloud/src/index.ts:840-895 | an approved action on a device that lists it in time is delivered and its result recorded |
| ResponseActions.SweepsByName | cloud/src/index.ts:983-988 | the sweep expires exactly the open actions whose time is over |
| ResponseActions.TerminalIsFinal | cloud/src/index.ts:780-895 | what was proposed never changes, approvals and results are final, and a terminal row stays as it is in every continuation |
| ResponseActions.KeepsInv | cloud/src/index.ts:721-988 | every statement keeps this and moves statuses along the life of an action only |
| ResponseActions.UndeliverableOnlyExpires | cloud/src/index.ts:853-873 | a dispatched action on an identity or indicator is never delivered or completed |
| ResponseActions.CompletesExactly | cloud/src/index.ts:862-895 | in every run, some continuation completes a dispatched action if and only if it targets a device |
| ResponseActions.MarksOnlyTheDeviceExactly | cloud/src/index.ts:845-860 | a dispatch after a listing marks only actions on the device if and only if no approved action on an identity or indicator has its name |
| ResponseActions.DispatchReachesIdentities | cloud/src/index.ts:845-860 | a run that marks an action on an identity as dispatched to a device |
| EndpointAccounts.RunKeepsInv | src/controlforge/standalone/accounts.py:118-397 | the invariant over all interleavings of the two-phase requests |
| EndpointAccounts.EveryRun | src/controlforge/standalone/accounts.py:118-397 | at most one session, usable grant and open reset per account; sessions carry the current version and password; usable grants have the authority enrollment asks for; the initial expiry is empty exactly if setup is complete; the first password is changed at most once |
| EndpointAccounts.SetupNeverReverts | src/controlforge/standalone/accounts.py:328-354 | in every continuation setup stays complete since the same time, versions do not fall, and equal versions mean equal passwords |
| EndpointAccounts.SessionsEndWithTheirPassword | src/controlforge/standalone/accounts.py:152-196 | a session that is still there saw no password change, reset or change of status since |
| EndpointAccounts.StatusByName | src/controlforge/standalone/network_lifecycle.py:389-422 | a change of status ends the account's sessions and grants and moves its version on, and disabling settles its reset requests; suspending the network ends all sessions and grants |
| EndpointAccounts.GrantsAndResetsWork | src/controlforge/standalone/accounts.py:248-276 | in every run a usable grant enrolls once until it expires, and an active account can ask for a reset |
| EndpointAccounts.AccountServer.CreateAccount | src/controlforge/standalone/accounts.py:42-98 | a new account has an initial password that is good for seven days |
| EndpointAccounts.AccountServer.BeginLogin | src/controlforge/standalone/accounts.py:118-136 | a sign-in goes on exactly with the password of an active account of the active network |
| EndpointAccounts.AccountServer.BeginChange | src/controlforge/standalone/accounts.py:221-228 | a change goes on exactly with a live session, before setup, and with another password |
| EndpointAccounts.AccountServer.StoreSession | src/controlforge/standalone/accounts.py:152-177 | expired sessions and those of the account go, all others stay, and the new one is there for 15 minutes |
| EndpointAccounts.AccountServer.StorePassword | src/controlforge/standalone/accounts.py:328-354 | the account keeps no session and no usable grant, other accounts are untouched, and setup is complete exactly if it was or is completed now |
| EndpointAccounts.AccountServer.FinishLogin | src/controlforge/standalone/accounts.py:137-150 | succeeds exactly if account and network are active, the version is the one read and an initial password has not expired; the session is opened with the password that was presented |
| EndpointAccounts.AccountServer.FinishChange | src/controlforge/standalone/accounts.py:229-246 | succeeds exactly if the session is still there and live, only for an account not set up, which is set up afterwards; the old token is dead |
| EndpointAccounts.AccountServer.FinishReset | src/controlforge/standalone/accounts.py:291-326 | succeeds exactly for an open request of an active account; its sessions and usable grants are gone and its setup is as before |
| EndpointAccounts.AccountServer.IssueGrant | src/controlforge/standalone/accounts.py:356-397 | succeeds exactly for a live session of an account that is set up; the new grant is the only usable one of the account, for 5 minutes |

## Assumptions

- MACs and the digests of identities and semantic keys are injective; key material is not modelled.
- Case folding, globbing, regular expressions, address tests inside rules, JSON text of expected values,
  great-circle distance and the normalization of a Santa record are parameters.
- A database statement or batch is atomic, and the unique keys of the migrations hold.
- Identifiers drawn at random are new where the model says so; case identifiers need not be.
- In `AlertCases` one processor handles an event at a time. In `EventIngestion` other writers do not
  delete events, and what was processed stays so, which `AlertCases.NothingReverts` shows for processors.
- In `CollectorRun` the log file is only appended to. In `CredentialRotation` credentials do not expire
  on their own, and control plane and agent see a delivery window close at the same time.

## Left out

- The TypeScript twin of the condition evaluator: it differs in keyword case, glob case and `device_id`, and would repeat the same theorems.
- Malformed regular expressions, which the operator `re` reports as an error: matching is a total parameter here.
- Non-integer numbers and numbers of at least 1e21 in canonical JSON: their shortest decimal form is floating-point printing.
- Rotation and truncation of the Santa log: a new inode restarts at offset zero.
- The retry circuit's delays and jitter, and the status snapshot of the agent.
- CollectorRun.Flush: does not model the failure text kept per batch and the summary of what is pending.
- AgentSpool.Spool.EnqueueCollected: does not model the order by creation time when the clock runs backwards.
- PfContainment.Drive: speaks of tokens that `pfctl -E` named; a token taken by a failed or unreadable `-E` cannot be released by anyone.
- A raw operating-system error from `tempfile.mkstemp` and a crash of the process between enabling PF and writing the state.
- StatefulAgreement.TiedLoginsDisagree: shows the disagreement for travel only; session uses at one time behave alike.
- StatefulDetectors.Pipeline.Evaluate: does not model the Sigma and built-in rules of the pipeline, which keep no state.
- EventIngestion.PersistEvents: does not model a database call that fails for another reason than a conflicting payload; it ends the request where it stands.
- EventIngestion.EnqueueEventIds: does not model the attempt identifier of a message.
- Deletion of old events by retention, rate limits and capacity checks.
- Case notes and assignment: one guarded insert or update each.
- ResponseActions.EveryRun: does not model the check that the case is open when an action is proposed, nor roles beyond the capability to propose active actions.
- Server-side HTTP, authentication, TLS, Keychain, `pfctl`, launch services and file permissions: steps that succeed or fail.
- Dashboards, Swift views, website, command line, installers, release manifests, triage and enrollment clients: plumbing.
- The recursion limit of the interpreter on deeply nested conditions and values.
