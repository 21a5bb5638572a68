# DockerLens: bounded acquisition, replay and cleanup, as proofs

DockerLens reads a Docker daemon's inventory under fixed limits, keeps every exchange in a log (a capture), and later decodes the
capture without talking to the daemon. This project models both ends and proves that they agree, models the transport and the request
printing underneath, and models four pieces of the repository that carry rules of their own: the mount-mode scanner, the timestamp
readers, and the cleanup protocols of three native harnesses.

`dafny verify dfyconfig.toml` checks everything.

## How it is laid out

- `Outcome`, `Sequences`, `Folding`, `Numerals`, `Identifiers`, `Utf8`, `Json`, `Protocol`: values that the rest shares.
- `Budget`: the poisonable counters as a state machine, a class that runs it in place, and what every sequence of calls keeps.
- `Framing`, `Wire`, `Response`, `Delivery`, `RequestPath`, `Diagnostics`: what a response stream means, the reader that finds it out
  from an arbitrarily split stream, responses as a daemon prints them, what one GET hands over of them, and request paths.
- `Versions`, `Selection`, `Related`, `Ordering`, `Completion`, `Acquisition`: negotiation, selection from a list, what a container
  mentions, the shape of a completed log, and the run that produces it against a daemon and a clock that may do anything.
- `Closure`, `Attainment`: what a completed run inspected, in terms of its log, and when a run succeeds.
- `Decoder`, `ReplaySoundness`, `AcquiredReplay`, `SmallRun`: the replay validator, what its acceptance means for any capture, which
  completed logs it accepts, and one such log.
- `MountMode`, `Calendar`, `Timestamp`: the scanner against an order-free meaning, and calendar arithmetic in closed form against loops.
- `IdentityPass`, `IdentityCleanup`, `NetworkReserve`, `NetworkDaemon`, `NetworkPass`, `NetworkCleanup`, `HealthPass`, `HealthCleanup`:
  ledgers of created containers and networks, and reserves of time, calls and bytes. The `Pass` modules give one cleanup as a function of
  what the daemon answers, and say when it succeeds and when it runs out; the `Cleanup` modules hold the runs that change in place, each
  step proved equal to that function.

Conventions. Bodies are parsed by a function `parse` from bytes to optional JSON of which nothing is assumed; JSON itself is a recursive
datatype. The long per-field decoders are functions of which only the reported error is known. Machine words are a symbolic bound
`machine`. Hash maps and sets iterate in any order: loops over them pick an arbitrary remaining element. A panic is a result (`None` or
`false`), and a caught panic is a failed step. Time is whatever the world says it is. Texts in `MountMode` and `Timestamp` are sequences
of characters; a byte stands for the character with its code.

## Main results

- Acquisition then replay (`AcquiredReplay.AcquireThenReplay`, `AcquiredReplays`): if acquisition succeeds under a limit of at most 4096 requests, replay accepts
  the capture exactly when the bodies that acquisition never looked into can be read and the version and info bodies agree. Otherwise the
  error is one inside a body, invalid JSON in the info body, or that disagreement. It is never a wrong status, an oversized response, a
  missing or out-of-range version, a repeated object, a mismatched identity or an incomplete inventory.
- Replay soundness (`ReplaySoundness.AcceptedObjects`, `AcceptedSelection`, `AcceptedVersions`), for captures of any origin.
- Exact closure (`Closure.ExactClosure`, `ByNameIsConjunction`, `FinalCounts`, `Completion.PlanDetermined`).
- Success (`Acquisition.Acquire`, `Attainment.AcquireWhole`, `PlainWorldPlays`): against a world that prints, in time, the bodies of a log
  which completes a plan within the limits, a run hands over exactly the capture of that plan and log; and such a world exists for every
  such log whose requests have paths and whose bodies fit.
- Early refusal (`Acquisition.Acquire`, `Closure.RefusedForGood`, `WorldRefuses`): a run that is refused for lack of expansions read
  container bodies, delivered by the daemon, on account of which no run for its selector completes within the limit.
- Accounting and absorbing failure over all call sequences (`Budget.Run`, `FailureAbsorbs`, `CaptureNeverMisaccounts`).
- Fragmentation independence, wire bound and round trips (`Wire.Connection.HttpGet`, `Delivery.Get`, `Response.LengthRoundTrip`,
  `ChunkedRoundTrip`): a result depends on the bytes that arrive and on how the stream then ends, and not on how the socket splits them.
- Injective paths (`RequestPath.PathsInjective`), order-free modes (`MountMode.Parse`, `OrderDoesNotMatter`), agreeing timestamps
  (`Timestamp.ReadTimestamp`, `PrintedReads`).
- Ownership, double absence and a proof whose assertions cannot fail (`IdentityCleanup.DeletesAreAuthenticated`, `IdentityRun.Live`);
  enough time, calls and output for the cleanup of a whole run (`NetworkCleanup.Run.LiveRun`); enough calls and bytes
  (`HealthCleanup.HealthRun.Live`); and success of a cleanup when the daemon lets it go on (`IdentityPass.HonestPassSucceeds`,
  `NetworkPass.HelpedPassSucceeds`, `HealthPass.HelpedPassSucceeds`).
- The deadline of the network cleanup can be met. Where calls and output have room, no daemon makes a pass late if and only if more than
  1000 (calls - 1) + 2000 milliseconds are left (`NetworkPass.NeverLateIf`). A work command leaves that much; a cleanup right after
  another has it only by chance, and for every script of observations there are a daemon and a deadline such that the cleanup after the
  work is late although the role before it was cleaned and nothing was refused (`NetworkCleanup.LateRun`).

Where code and prose differ the code is followed. One place is worth knowing: exact names are compared without leading slashes but counted
as they were requested, so asking for `a` and `/a` succeeds and selects one container once (`Selection.TwoSpellings`).

## Model

| member | source | states |
|---|---|---|
| Budget.BudgetCounters.Record | src/acquisition.rs:280-347 | Admitting a request takes exactly one step of the state machine: time, pending response, reference shape, version, registration of the pair, then the two counters, in that order |
| Budget.BudgetCounters.RegisterTarget | src/acquisition.rs:303-331 | Registration refuses a reference or an object that is already paired otherwise, poisons on the expansion limit, and adds the pair to both maps |
| Budget.BudgetCounters.Selected | src/acquisition.rs:349-360 | Selections are charged and poison beyond their limit |
| Budget.BudgetCounters.Expanded | src/acquisition.rs:362-377 | Expansions are charged and poison beyond their limit |
| Budget.BudgetCounters.Read | src/acquisition.rs:379-419 | A response is read with one sentinel byte above the allowance; a broken, late or oversized one poisons, and otherwise it joins the log under its pending request |
| Budget.BudgetCounters.Finish | src/acquisition.rs:432-444 | Finishing gives the checked capture or the first reason against it |
| Budget.RegisterKeepsInverses | src/acquisition.rs:303-331 | Registering keeps the two maps mutual inverses and forgets no earlier pair, whether it succeeds or not |
| Budget.Run | src/acquisition.rs:245-445 | After every sequence of calls the maps are mutual inverses, every request carries a reference exactly when it inspects, and, unless failed, requests equal exchanges plus pending, bytes equal the sum of the bodies, and all limits hold |
| Budget.InitialSound | src/acquisition.rs:179-263 | A budget over admissible limits starts in such a state |
| Budget.ErrorsPoisonOrChangeNothing | src/acquisition.rs:265-419 | The error of a refused call tells whether it poisoned the budget or left it exactly as it was |
| Budget.FailureAbsorbs | src/acquisition.rs:265-278 | After a poisoning error no sequence of calls changes the state and no capture comes out |
| Budget.SharedReferenceMeansSameTarget | src/acquisition.rs:303-331 | Two inspections in a log share a reference exactly when they address the same kind and ID |
| Budget.CaptureNeverMisaccounts | src/evidence.rs:142-163 | The accounting error cannot happen; a capture comes out exactly of an unfailed, timely, non-empty state with nothing pending, and its bounds are the true counts of its log |
| Framing.FrameBounded | src/acquisition.rs:622-706 | No response yields more bytes than its allowance, and its status lies in 100 to 599 |
| Framing.FrameFails | src/acquisition.rs:622-706 | A refused response fails as malformed, as larger than the allowance, or for the way its stream ended |
| Framing.FrameExtends | src/acquisition.rs:603-706 | A complete response means the same with anything behind it, and however the stream then ends |
| Wire.Connection.Read | src/acquisition.rs:523-543 | One read takes a nonempty part of what has arrived; it comes back empty only at an orderly end and fails only at a break, both with everything consumed |
| Wire.Connection.WriteAll | src/acquisition.rs:545-566 | What has been sent is always a prefix of the request, and all of it exactly when the socket takes that many bytes before it fails |
| Wire.Connection.Line | src/acquisition.rs:576-586 | A line is what the stream spells up to its line end, within the cap, however it arrives; where the bytes run out first, the error is the way the stream ended |
| Wire.Connection.Exact | src/acquisition.rs:588-600 | Exactly the wanted bytes of the stream, however they arrive; it fails only where fewer arrive, with the way the stream ended |
| Wire.Connection.OneChunk | src/acquisition.rs:667-703 | One chunk, or the last one with its empty trailer, as the stream and its end spell it; a chunk larger than the remaining room is refused before it is read |
| Wire.Connection.Chunks | src/acquisition.rs:664-703 | The chunk loop ends, with the remaining room as its measure, in what the stream means, and consumes no more than A + (A+1)(64+2) + H bytes |
| Wire.Connection.HttpGet | src/acquisition.rs:603-706 | For a request sent in full the result is determined by the bytes of the stream and by how it ends, and not by how it is split; on every outcome at most H + A + (A+1)(64+2) + H response bytes are consumed |
| Response.BlankLineOnlyAtEnd | src/acquisition.rs:622-636 | In a printed head the blank line occurs at its end only |
| Response.HeadReads | src/acquisition.rs:622-663 | A printed head reads back as its status and what its one delimiting field says, whatever neutral fields surround it |
| Response.LengthRoundTrip | src/acquisition.rs:603-706 | A response with a content length yields exactly its status and payload (section 6.3 of RFC 9112) |
| Response.ChunksRead | src/acquisition.rs:664-703 | Printed chunks read back as the concatenation of their data (section 7.1 of RFC 9112) |
| Response.ChunkedRoundTrip | src/acquisition.rs:603-706 | A chunked response without trailers yields its status and the concatenated payload, however it was cut into chunks |
| Delivery.ChunksRefused | src/acquisition.rs:664-703 | Chunks that together exceed the allowance are refused for their size at the first one that no longer fits |
| Delivery.PrintedFrames | src/acquisition.rs:603-706 | A printed response means its status and content, or the byte limit exactly when the content exceeds the allowance, whatever follows it and however the stream ends |
| Delivery.Get | src/acquisition.rs:603-706 | One GET to a daemon that prints a response returns just that once its request is sent, however the socket splits the bytes and whatever it does behind them |
| Diagnostics.LongestRequest | src/acquisition.rs:748-759 | A diagnostic request for a canonical ID under 1.41 or 1.56 is 163 bytes long |
| Diagnostics.DiagnosticGet | src/acquisition.rs:748-823 | Of any request only the version and canonical containers under 1.41 or 1.56 are sent, within the bounds on times and body; whatever happens no more than the fixed wire limit is sent and received, and a result is what the stream means and was complete within both deadlines |
| RequestPath.EncodeSegment | src/acquisition.rs:708-722 | The loop prints every byte of the identifier unreserved or escaped, and refuses identifiers over 1024 bytes |
| RequestPath.UnescapeEscaped | src/acquisition.rs:708-722 | Percent-decoding (section 2.1 of RFC 3986) inverts the printed segment |
| RequestPath.SegmentsInjective | src/acquisition.rs:708-722 | Different identifiers have different segments |
| RequestPath.TailsInjective | src/acquisition.rs:733-742 | Different requests have different unversioned paths |
| RequestPath.PathsInjective | src/acquisition.rs:724-744 | Different pairs of request and API version have different paths; only the version request ignores its version |
| RequestPath.PathsStayOnTheRequestLine | src/acquisition.rs:724-744 | No path holds a space, a carriage return or a line feed |
| Utf8.DecodeEncoded | src/acquisition.rs:713-714 | Identifiers are printed from their UTF-8 bytes, which decode back to them |
| Utf8.EncodeDecoded | src/acquisition.rs:622-640 | Only encodings decode, so a head that is text is the encoding of that text |
| Versions.NegotiatedInRange | src/acquisition.rs:870-898 | The negotiated version is 1.41 to 1.49, at most the advertised version and at least the advertised minimum |
| Versions.PrintedApiParses | src/acquisition.rs:855-868 | Every version in range parses back from its printed form |
| Selection.MatchName | src/acquisition.rs:976-991 | One listed name is matched against all requested ones; it fails exactly when a requested name was already hit |
| Selection.Scan | src/acquisition.rs:934-1016 | The loop succeeds only on entries that all read, with distinct IDs and no repeated hit, and returns the matching IDs in order and the names met |
| Selection.HitsMeanExactlyOnce | src/acquisition.rs:976-1027 | No repeated hit and as many hits as names holds if and only if the names are distinct and each occurs at exactly one position |
| Selection.SelectIds | src/acquisition.rs:918-1029 | Selection succeeds if and only if the list is bounded and shaped and the selector's demand holds; it returns the matching IDs in list order, and its error tells which of the two failed |
| Selection.SelectedPicks | src/acquisition.rs:934-1016 | The result is the order-preserving list of all matching entries |
| Selection.ExactNamesSelected | src/acquisition.rs:918-1029 | By exact names: distinct names, each at one container and position, and a duplicate-free result in list order |
| Selection.TwoSpellings | src/acquisition.rs:976-1027 | Asked for with and without a leading slash, a container is selected, once |
| Related.RelatedIds | src/acquisition.rs:1080-1123 | A container body expands if and only if its endpoints and mounts are shaped, into exactly the networks and volumes it mentions |
| Related.MergeNetworks | src/acquisition.rs:1241-1251 | Known flags are weakened at once and new networks collected apart; together they are the merge of all mentions, in any order |
| Related.MergedTwice | src/acquisition.rs:1241-1269 | Merging body after body is merging all mentions at once |
| Ordering.Sorted | src/acquisition.rs:1271-1274 | Whatever order the table hands out its keys, the result is ascending and has exactly those keys |
| Ordering.AscendingUnique | src/acquisition.rs:1271-1274 | There is only one ascending sequence of a set of identifiers |
| Acquisition.Perform | src/acquisition.rs:825-853 | A successful exchange adds one exchange of status 200 and at most 8 MiB to a live budget whose counters equal its log; on every outcome each recorded status and body is what the stream of its turn means within the room that was left; an exchange that a log carried by the world asks next succeeds with its body |
| Acquisition.HeardAgree | src/acquisition.rs:825-853 | The world alone decides the statuses and bodies of a log of a given length |
| Acquisition.Inspect | src/acquisition.rs:1125-1145 | A successful inspection is recorded under its fresh reference and its body repeats the requested identity; a network also names its native ID |
| Acquisition.ProjectionIsNeeded | src/acquisition.rs:1257-1267 | The projection counts only inspections that the complete expansion needs |
| Acquisition.InspectContainers | src/acquisition.rs:1221-1270 | The loop inspects the containers in order and tabulates exactly what their bodies mention, or refuses a run whose complete expansion exceeds the limit |
| Acquisition.InspectNetworks | src/acquisition.rs:1275-1302 | Every network once, by ID or name, no two with one native ID; the fallbacks are exactly the references of those inspected by name |
| Acquisition.InspectVolumes | src/acquisition.rs:1303-1324 | Every volume once under consecutive references |
| Acquisition.Begin | src/acquisition.rs:1153-1207 | Before the first inspection the log is version, info and, for selectors that list, the container list; the roots are the explicit or the selected IDs, deduplicated |
| Acquisition.RootsAreCounted | src/acquisition.rs:1216-1218 | The selection that was charged is the number of roots of the finished plan |
| Acquisition.Acquire | src/acquisition.rs:1147-1337 | A run succeeds only with the capture of a completed log, with exact counts within all limits and bodies that the world delivered; a bad selector or bad limits are refused before any contact; a run refused for lack of expansions opened as planned and then read, from the world, container bodies that call for more than the limit; and where the world carries a log that completes a plan, in time and within the limits, the run succeeds with exactly the capture of that plan and log |
| Closure.InspectedArePlanned | src/acquisition.rs:1221-1324 | Only planned objects are inspected |
| Closure.PlannedAreInspected | src/acquisition.rs:1221-1324 | All planned objects are inspected |
| Closure.ExactClosure | src/acquisition.rs:1203-1324 | The inspected objects are precisely the roots and what the inspected container bodies mention, each once; the exchanges after the opening carry the references 1, 2, 3 and so on |
| Closure.ByNameIsConjunction | src/acquisition.rs:1241-1251 | A network is inspected by name, and its reference is a fallback of the capture, if and only if it is no explicit root and no mention of it is by ID |
| Completion.PlanDetermined | src/acquisition.rs:1271-1274 | The container bodies and the selector determine the rest of the plan, whatever order hash maps iterate in |
| Closure.FinalCounts | src/acquisition.rs:317-340 | On success expansions equal containers plus networks plus volumes, requests equal two plus the list plus expansions, and selections and bytes are exact |
| Closure.RefusalIsSound | src/acquisition.rs:1257-1267 | Any completed run over the same roots and the same first container bodies as an excessive draft spends more expansions than the limit |
| Closure.BodiesDecide | src/acquisition.rs:1153-1270 | The bodies that two logs of one selector share decide the rest of that part: API version, roots and container exchanges |
| Closure.RefusedForGood | src/acquisition.rs:1257-1267 | No completed run for the selector of a refused run that gets the same bodies, as far as the refused one read, stays within the limit |
| Closure.WorldRefuses | src/acquisition.rs:1257-1267 | Against a world that refused a run for lack of expansions, no run for the selector completes within the limit |
| Attainment.PrintedIsHeard | src/acquisition.rs:603-706 | What a daemon prints within the limits, by length or in chunks and whatever follows it, is what the run reads |
| Attainment.CompletedIsAttainable | src/acquisition.rs:1147-1337 | A log that completes a plan repeats no reference and no object and spends exactly its counts, so a world that prints and carries it lets a run go through all of it |
| Attainment.AcquireWhole | src/acquisition.rs:1147-1337 | From a world that prints and carries a log which completes a plan within the limits, exactly the capture of that plan and log comes out |
| Attainment.PlainWorldPlays | src/acquisition.rs:545-706 | For every completed log whose requests have paths and whose bodies fit there is a world that does so |
| Decoder.FieldValue | src/decoder.rs:362-381 | The loop over a path stops at a null or redacted value, reports a missing key as none and any other shape as an error |
| Decoder.Replay | src/decoder.rs:1474-1724 | The pass over the exchanges is a fold whose first fault decides |
| Decoder.DecodeCapture | src/decoder.rs:1434-1821 | The validator is the fold, then the closing checks in order |
| ReplaySoundness.AbsorbAdds | src/decoder.rs:1475-1723 | An accepted exchange reads, and either leaves all objects alone or adds one with a native ID and a reference not met before and one observation; only a version body, once, sets the advertised range |
| ReplaySoundness.ReplayEstablishes | src/decoder.rs:1474-1724 | After any replayed log its objects are distinct, its observations are those of its inspections in log order, its versions are those of its requests, and the advertised range is what its one version body says |
| ReplaySoundness.RootNamesOne | src/decoder.rs:1759-1782 | A root that passes names exactly one observation of its kind |
| ReplaySoundness.AcceptedObjects | src/decoder.rs:1434-1821 | Acceptance of any capture means matching identities, distinct native IDs and references per kind, observations one to one with inspections in order, and roots that each name one observation |
| ReplaySoundness.AcceptedSelection | src/decoder.rs:1580-1598 | Acceptance means one container list whose selection equals the container roots, for the selectors that select from a list |
| ReplaySoundness.AcceptedVersions | src/decoder.rs:1792-1803 | Acceptance means that a log holds at most one version body, and that every version a request used lies in the range that this body advertises |
| AcquiredReplay.NegotiatedFields | src/decoder.rs:1398-1408 | Replay reads from the version body the same versions that negotiation read |
| AcquiredReplay.OpeningFolds | src/decoder.rs:1490-1603 | Replay passes the opening of a completed log if and only if its bodies read and agree, and otherwise fails in one of the excused ways |
| AcquiredReplay.NativesDiffer | src/acquisition.rs:1203-1302 | No two inspections of a completed log meet the same native object |
| AcquiredReplay.InspectionsFold | src/decoder.rs:1625-1722 | Replay passes the inspections of a completed log if and only if each body's own decoder does |
| AcquiredReplay.SomethingSelected | src/acquisition.rs:1017-1029 | A selector that takes from a nonempty list takes something |
| AcquiredReplay.RootIdsAreContainers | src/decoder.rs:1733-1742 | The container roots of a completed log are the chosen containers |
| AcquiredReplay.PlanCompletes | src/decoder.rs:1725-1791 | A completed log passes every closing check of the inventory |
| AcquiredReplay.AcquiredReplays | src/decoder.rs:1434-1821 | A completed log is accepted if and only if the unread bodies read and agree; every other verdict is excused by one of them |
| AcquiredReplay.AcquireThenReplay | src/acquisition.rs:1147-1337 | The same for every successful run under a request limit of at most 4096, with the two programs run one after the other and all bodies as the world delivered them: the only possible errors are one inside a body, invalid JSON and conflicting facts |
| SmallRun.Accepted | src/acquisition.rs:1147-1337 | Completed logs exist: a run over one container that mentions one network by name is complete, and replay accepts it |
| MountMode.Parse | src/decoder_mount_mode.rs:46-114 | The scan with its flags equals a meaning that sees only the multiset of tokens: length, count, emptiness, and at most one option of each class |
| MountMode.SplitOfJoin | src/decoder_mount_mode.rs:56-57 | Splitting at commas inverts joining |
| MountMode.OrderDoesNotMatter | src/decoder_mount_mode.rs:46-114 | Permuting the tokens of a mode changes nothing |
| MountMode.RejectionSurvivesInsertion | src/decoder_mount_mode.rs:107-114 | Inserting any token anywhere in a rejected mode keeps it rejected |
| MountMode.Interpret | src/decoder_mount_mode.rs:32-44 | An unavailable mode stays unavailable, and an available one is parsed |
| MountMode.ConflictMeans | src/decoder_mount_mode.rs:10-30 | A supported mode conflicts with the read-write flag if and only if it names the other access |
| Calendar.YearAdds | src/native_health_metadata_tests.rs:156-159 | The closed form grows by each year's own length |
| Calendar.CountDays | src/native_health_metadata_tests.rs:156-165 | The year loop and the month sum give the closed-form Gregorian day count |
| Calendar.DaysOrder | scripts/native_health_metadata_proof.py:31-34 | The day count orders dates as their components do |
| Calendar.DateOfDays | scripts/native-port-start-diagnostic.py:204-207 | Civil date from days and days from civil date are mutual inverses |
| Timestamp.PaddingScales | scripts/native_health_metadata_proof.py:35-35 | Padding a fraction with zeros equals scaling it |
| Timestamp.ReadFraction | src/native_health_metadata_tests.rs:151-155 | The scaled fraction is the padded one and stays within 32 bits |
| Timestamp.ReadTimestamp | src/native_health_metadata_tests.rs:98-171 | The harness's reader accepts exactly the texts that the validator's pattern and ranges accept, and counts the same nanoseconds |
| Timestamp.ReadersAgree | scripts/native_health_metadata_proof.py:25-36 | The validator's reader is the port diagnostic's reader restricted to non-negative values |
| Timestamp.AcceptedOrder | scripts/native_health_metadata_proof.py:25-36 | Accepted texts compare as numbers the way their components compare |
| Timestamp.PrintedReads | scripts/native-port-start-diagnostic.py:187-207 | From the epoch to the end of the year 9999, what is printed reads back |
| Timestamp.PrintedInjective | scripts/native-port-start-diagnostic.py:187-207 | Different values print differently |
| IdentityPass.CommandKeepsReserve | src/native_identity_tests.rs:290-297 | A command with its kill grace leaves the forty seconds of the reserve, gets as many of ten seconds as fit, and is refused only when none does |
| IdentityPass.HonestPassSucceeds | src/native_identity_tests.rs:610-678 | With room for seven commands for each name, a cleanup succeeds against a daemon that finds what stands as this run's own, confirms its removal and finds nothing else, where the ledger accounts for every other attempted name |
| IdentityPass.TruthfulIsHonest | src/native_identity_tests.rs:642-678 | Whatever containers are there under distinct names and IDs, there is such a daemon |
| IdentityCleanup.IdentityRun.Ask | src/native_identity_tests.rs:382-470 | A command is refused near the deadline and beyond four hundred; work commands leave forty seconds whatever the daemon does |
| IdentityCleanup.IdentityRun.Api | src/native_identity_tests.rs:497-553 | Only closed routes reach the daemon, every call that does was authorised by the trace before it, and during a cleanup it is what the specification asks |
| IdentityCleanup.IdentityRun.Bind | src/native_identity_tests.rs:571-588 | An ID is registered only after it was read by its allow-listed name under the owner label, and only if no other name has it |
| IdentityCleanup.IdentityRun.RemoveOwned | src/native_identity_tests.rs:642-678 | A removal succeeds only by absence that the ledger explains or by a confirmed delete of the registered ID; a verified one registers no ID for a refused creation |
| IdentityCleanup.IdentityRun.Cleanup | src/native_identity_tests.rs:610-640 | A verified pass ends in two rounds that read every attempted name and known ID absent; one failed pass makes every later one fail; registered IDs stay; at most seven commands for each name, and exactly the pass of the specification |
| IdentityCleanup.IdentityRun.Work | src/native_identity_tests.rs:1525-1574 | Work reads version and security options, and succeeds only when both roles of every case were then attempted, with one matching outcome that the ledger of IDs and refusals bears out; it takes at most 142 commands |
| IdentityCleanup.IdentityRun.ProofHolds | src/native_identity_tests.rs:958-993 | After complete work and a verified cleanup none of the assertions about the ledger that the proof makes can fail |
| IdentityCleanup.IdentityRun.Live | src/native_identity_tests.rs:1515-1590 | A proof exists exactly after complete work and one verified pass, and it lists every name with its ID; a failed pass is followed by another; the first pass begins with at least forty seconds, none of its commands is refused for their number, and it succeeds when the daemon tells the truth and the commands are short enough |
| IdentityCleanup.DeletesAreAuthenticated | src/native_identity_tests.rs:642-678 | In every state of a run each DELETE directly follows a read that found this ID under the owner label and under the one name that the ledger has it registered for |
| IdentityCleanup.NothingLeftBehind | src/native_identity_tests.rs:622-636 | After a verified pass, every name that a creation was ever requested under has been read absent twice |
| IdentityCleanup.RoundCovers | src/native_identity_tests.rs:622-636 | An absence round leaves out no attempted name and no known ID |
| NetworkReserve.AdmissionSuffices | src/native_network_attachment_tests.rs:286-314 | However long an admitted work command takes, it leaves the reserve |
| NetworkReserve.CallsBounded | src/native_network_attachment_tests.rs:130-135 | A cleanup takes at most 1 + 2 outstanding + 4 history calls |
| NetworkReserve.RegisteredCovers | src/native_network_attachment_tests.rs:580-592 | Registering a name before anything exists under it keeps a cleanup affordable |
| NetworkReserve.MarkedCovers | src/native_network_attachment_tests.rs:933-939 | Marking a name live before its creation is sent keeps a cleanup affordable |
| NetworkReserve.AtMostTen | src/native_network_attachment_tests.rs:580-592 | Unique names of two roles and five slots are never more than ten |
| NetworkReserve.PassesFit | src/native_network_attachment_tests.rs:286-296 | Three passes stay within the cleanup call budget, and two of any output within the output pool |
| NetworkPass.NeverLateIf | src/native_network_attachment_tests.rs:286-291 | Where calls and output have room for a pass, no daemon makes it late if and only if more than 1000 (calls - 1) + 2000 milliseconds are left |
| NetworkPass.HelpedPassSucceeds | src/native_network_attachment_tests.rs:632-697 | With time and room for it, a pass succeeds and takes all its calls when everything live is found and removed and nothing is found after that |
| NetworkPass.PassRunSpends | src/native_network_attachment_tests.rs:286-374 | A pass makes no more calls and retains no more output than its bound, is refused only for want of room, late only for want of time, and against a daemon of one second a call takes exactly a second for each |
| NetworkPass.PassLeaves | src/native_network_attachment_tests.rs:632-697 | A pass keeps the names, and after success everything that was live is deleted and nothing is live |
| NetworkDaemon.SlowPassExists | src/native_network_attachment_tests.rs:632-697 | For any resources there is a daemon that lets a pass over them succeed and takes a second for each call |
| NetworkPass.SecondFits | src/native_network_attachment_tests.rs:286-359 | After the cleanup of one role, calls and output have room for a pass over whatever is registered |
| NetworkPass.LastFits | src/native_network_attachment_tests.rs:286-359 | After the cleanups of both roles they have room for the last pass |
| NetworkCleanup.Run.WorkCapture | src/native_network_attachment_tests.rs:277-374 | A work command that returns leaves time for a whole cleanup and for one more registration, also when there was none before it; a refused one takes none away |
| NetworkCleanup.Run.Create | src/native_network_attachment_tests.rs:933-1018 | Creation, by the command line or the API, keeps a cleanup affordable at every point where it may stop |
| NetworkCleanup.Run.CreateContainer | src/native_network_attachment_tests.rs:973-1019 | The same for containers, whose network is read back as this run's own first |
| NetworkCleanup.Run.Cleanup | src/native_network_attachment_tests.rs:632-697 | A cleanup is exactly the pass of the specification, for every daemon: its calls, time, output, refusals, removals and what it leaves; success means two complete absence rounds |
| NetworkCleanup.Run.PlayRole | src/native_network_attachment_tests.rs:1180-1270 | The cleanup of a role is never late, and spends no more than a pass over its resources; a daemon that lets the role be built and cleaned makes it pass, at a second for each command |
| NetworkCleanup.Run.LiveRun | src/native_network_attachment_tests.rs:1601-1636 | Unless the cleanup of a role failed, the cleanup after the work is never refused for calls or output; it is not late, and succeeds if the daemon lets it go on, once a work command was admitted after the last role, as it is when the work passes |
| NetworkCleanup.LateRun | src/native_network_attachment_tests.rs:286-291 | For every script of observations there are a daemon and a deadline such that the cleanup after the work is late, with six names registered, one role cleaned and nothing refused |
| HealthPass.PassFits | src/native_health_metadata_tests.rs:259-275 | After at most 310 calls, a pass of 88 fits both pools |
| HealthPass.HelpedPassSucceeds | src/native_health_metadata_tests.rs:1254-1307 | With room for it, a cleanup succeeds when everything attempted is found and removed, or known and not found, and nothing is found after that |
| HealthCleanup.HealthRun.WorkCapture | src/native_health_metadata_tests.rs:441-489 | Work stops at 300 calls and 2 MiB |
| HealthCleanup.HealthRun.RemoveContainer | src/native_health_metadata_tests.rs:1179-1213 | A removal takes at most five calls; it succeeds by the whole sequence of authenticated reads, delete and absence, or by absence of a known container |
| HealthCleanup.HealthRun.RemoveImage | src/native_health_metadata_tests.rs:1215-1252 | An image removal takes at most three calls, the delete after two authenticated reads |
| HealthCleanup.HealthRun.ObservePair | src/native_health_metadata_tests.rs:1309-1472 | A pair is removed before the next may start, and wherever it stops the shared pools keep room for the cleanup |
| HealthCleanup.HealthRun.Cleanup | src/native_health_metadata_tests.rs:1254-1307 | At most 88 calls, none refused where there is room for the pass; success means two complete absence rounds; for every daemon it is exactly the pass of the specification |
| HealthCleanup.HealthRun.Live | src/native_health_metadata_tests.rs:1631-1650 | However far a run gets, its cleanup is never refused for want of calls or bytes, and it succeeds when the daemon lets it go on; the one that follows a failed cleanup is refused only if no room for a pass is left |

## Left out

- The per-field decoders of containers, networks, volumes and summaries: only the error they report is known, since the agreement needs no more of them.
- JSON text: parsing bytes is an uninterpreted function, so limits of the parser itself are not modelled.
- Findings, redacted formatting and panic messages: presentation. Observation IDs are opaque and not modelled.
- `EngineRelease` and `ApiVersion` are not part of this model beyond this: an empty release reads as none, and versions order by major, then minor.
- Connecting, polling and spawning: the world decides what a socket delivers, what a command returns and how long both take; what a command line reports when it is killed at its timeout is up to the daemon. Clock readings are not required to grow, which only admits more runs.
- IdentityCleanup.IdentityRun.Live: the harness sets no output aside for its cleanup, so the success of the first pass is stated for what the work has left of the pool.
- Numeric zone offsets in the port diagnostic's reader, whose limits depend on the library version: only the `Z` form is modelled.
- Dates before 1970 in the printer, and years past 9999, which the library refuses.
- Timestamp.ReadTimestamp: texts are characters and not bytes, because a text with any other character is refused by both readers.
- Budget.Run: does not bound the time between two calls, because every call carries its own clock reading.
- HealthCleanup.HealthRun.ObservePair: the observations between creation and removal are a number of commands chosen by the world, because only their count and size bear on the pools.
- HealthCleanup.HealthRun.RemoveContainer: the read before a delete is authenticated by an abstract verdict of the world on name, image and label, because the label comparison is modelled in the identity harness.
- NetworkCleanup.Run.PlayRole: starts, connections and observations are commands whose caps and verdicts the world chooses, because only their number, time and output bear on the reserve.
- NetworkCleanup.Run.LiveRun: the flag for a mutation of unknown outcome and the publication of the proof are not modelled.
- IdentityCleanup.IdentityRun.Work: the judgements on process output, configuration and rejection messages are parameters, because they are comparisons with fixed literals.
- The lifecycle and stop-signal harnesses, the Python proof validators beyond their clocks, the planner, the renderer and the catalogue.
