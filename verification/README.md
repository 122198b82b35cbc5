# download-gateway: a verified model

The download gateway puts one API in front of several download clients. It keeps a **registry** of
clients (some configured in the environment, some pushed as a set over the API) and a map of
**tracked jobs** that a poll loop follows until each ends in one terminal event. This project models
both, and the code between them, in Dafny and proves what they promise.

The parts, by file:

- `Text.dfy`: trimming, byte-wise string order, sorting, decimal numerals, joining and splitting.
  A string is a Go byte string, one `char` per byte.
- `ClientSpecs.dfy`: validation of a client spec and its length-prefixed fingerprint. `AcceptedSpecs.dfy`:
  which specs are accepted, what an accepted one runs with, and why the others are refused, in terms of
  what was sent.
- `RegistryRules.dfy`: what a config push and a reap mean, stated without loops or order, with the
  validation and the hash as parameters. `Registry.dfy`: the registry as an object with its two-loop
  `Apply`, leases and `Reap`, proved against those rules. `Pushes.dfy`: what becomes of the spec at each
  position of a push and of each client there was, and that the reports are exact.
- `Base64.dfy` (section 4 of RFC 4648), `Json.dfy` (section 7 of RFC 8259, and the escaping
  `encoding/json` does) and `AppendStream.dfy`: the streamed NZBGet append, proved to be the
  marshalled call byte for byte. `JsonReader.dfy`: an independent reader of JSON text, by which the
  receiver of the body gets its values back.
- `Clients.dfy`: how the three adapters fold what a client says into one job view, and what they adopt.
  `Holdings.dfy`: what a client holds, and what follows from it for adoption and for polls.
- `Tracking.dfy`, `Lifecycle.dfy`: tracked jobs as a state machine whose steps are single holds of
  the job lock, client answers and published events, in any interleaving; terminal events, the grace
  window, and adds against adoption. `Gateway.dfy`: the same operations as methods that update the
  tracked map and its records in place. `PollRuns.dfy`: the two agree. `GraceWindow.dfy`: a job its
  client has lost is given up in the end.
- `Protocol.dfy`, `Safety.dfy`: registry and tracker together. A push or a reap holds the registry
  lock from its first to its last move, but asks about each client separately, so jobs come and go
  between two answers. `Adapters.dfy`: which adapter a client runs on, over those runs.
  `Liveness.dfy`: a push, a reap and the poll of every tracked job can be carried out to their end.
- `Restarts.dfy`: the tracker with its clients across any number of crashes.
- `AddBudget.dfy`: the memory budget of large adds.
- `Server.dfy`: the handlers that add, remove and configure, the poll pass and adoption, each as one
  call on the registry, the tracked jobs and the budget together.

Inputs from outside are parameters or free choices: a client's answer is an error, a view or
"not found"; time is a natural number that only grows; `url.Parse` and SHA-256 are functions given
to the registry. SHA-256 is assumed injective only where a statement says so: that a
kept client runs with the pushed spec (`Injective` in `RegistryRules.dfy`).

Two places where the code and its comments differ. The comment at `cmd/server/main.go:580` says that
a job adopted in a race can find its client gone; since adoption takes a lease like an add does, only
a job that is no longer tracked can (`Safety.GoneClientHasNoTrackedJob`). And the streamed body equals
the marshalled call only when parameters follow the content; with none the code would write a stray
comma (`AppendStream.BodyIsMarshalledCall` states exactly that). The gateway always passes seven.

## Model

| member | source | states |
|---|---|---|
| `Text.TrimSpaceTrims` | internal/adapters/clients.go:195-196 | trimming takes the white space off both ends, all of it and nothing else |
| `Text.SpacesAreSpaces` | internal/adapters/clients.go:195-196 | white space is the UTF-8 encoding of a Unicode space |
| `Text.TrimSlashesTrims` | internal/adapters/clients.go:218 | only the slashes at the end go, and all of them |
| `Text.LessIsByteOrder` | internal/adapters/registry.go:320-321 | names are sorted by their bytes, lexicographically |
| `ClientSpecs.PrepareSpec` | internal/adapters/clients.go:193-274 | the step-by-step rewriting ends in the normal form, or in the first problem in the order the fields are checked |
| `ClientSpecs.CheckFields` | internal/adapters/clients.go:241-256 | the first field that is too long or holds a control character is the one reported |
| `ClientSpecs.CollectProtocols` | internal/adapters/clients.go:258-272 | the loop collects the distinct trimmed protocols, sorted, the type's own when none was sent |
| `ClientSpecs.ProtocolsAreNormal` | internal/adapters/clients.go:258-272 | accepted protocols are non-empty, distinct, sorted, allowed, and exactly those sent when any was sent |
| `ClientSpecs.PreparedIsNormal` | internal/adapters/clients.go:187-274 | every accepted spec is in normal form: known type and auth mode, no trailing slash, only the credentials its mode uses, fields within limits |
| `ClientSpecs.SpecHash` | internal/adapters/clients.go:294-305 | the loop writes the length-prefixed frames of the eight hashed fields in order |
| `ClientSpecs.FramesInjective` | internal/adapters/clients.go:291-301 | the length-prefixed encoding is uniquely decodable, for any number of fields with any content |
| `ClientSpecs.FingerprintFaithful` | internal/adapters/clients.go:291-305 | two accepted specs have equal fingerprints exactly when they agree on every field but the id, comma-joined protocols included |
| `AcceptedSpecs.TypesOffer` | internal/adapters/clients.go:56-84 | each type of the catalog offers its auth modes and its one protocol; only oDownloader takes no payload and cannot pause, only qBittorrent takes a save path |
| `AcceptedSpecs.IdRule` | internal/adapters/clients.go:171-175 | an id is one to forty lower-case letters, digits and hyphens and does not start with a hyphen |
| `AcceptedSpecs.AcceptedExactly` | internal/adapters/clients.go:193-274 | a spec is accepted exactly when its type is known, its URL absolute http(s) without user, query and fragment, its auth mode offered by the type with the credentials that mode needs, its texts within their limits and free of control characters, and its protocols the type's |
| `AcceptedSpecs.EarlyRefusals` | internal/adapters/clients.go:197-223 | a spec is refused for its type, URL or auth mode exactly when that is the first of them to fail |
| `AcceptedSpecs.LateRefusals` | internal/adapters/clients.go:224-264 | after those it is refused for a missing username or secret, then for a text, and for its protocols only when all else is well |
| `AcceptedSpecs.TextRefused` | internal/adapters/clients.go:239-256 | of the texts the first misfit is reported, its length before its control characters; credentials the mode does not use are not looked at |
| `AcceptedSpecs.AcceptedFields` | internal/adapters/clients.go:194-272 | every field of an accepted spec is its own trimmed field of what was sent: the username only under "basic", the secret as sent unless the mode is "none" |
| `AcceptedSpecs.AcceptedUrl` | internal/adapters/clients.go:206-218 | the URL of an accepted spec is the trimmed one sent without the slashes at its end, and absolute, without user, query and fragment |
| `AcceptedSpecs.SecretIsFingerprinted` | internal/adapters/clients.go:291-305 | two accepted specs that differ in the secret they were sent with have the same fingerprint exactly when their mode uses no secret |
| `RegistryRules.AppliedMeaning` | internal/adapters/registry.go:287-288 | the applied list has no duplicates and holds exactly the ids of accepted specs |
| `RegistryRules.ErrorsMeaning` | internal/adapters/registry.go:256-265 | the error list has one entry per refused id, with the reason of its specs |
| `RegistryRules.AppliedAndFailedPartition` | internal/adapters/registry.go:246-299 | applied and failed ids are disjoint, listed once each, and cover the push |
| `RegistryRules.PushMeaning` | internal/adapters/registry.go:225-314 | after a push: environment clients untouched, accepted ids active on the entry of equal hash or on a new one, failed ids exactly as they were, every other API client draining if leased or in use and gone otherwise, nothing else registered |
| `RegistryRules.PushKeepsFaithful` | internal/adapters/registry.go:286-298 | every API entry goes on describing the spec its adapter was built from: all of it but the secret, whether it has one, and its hash |
| `RegistryRules.PushedSpecsRun` | internal/adapters/registry.go:225-229 | whatever ran before, after a push every accepted client is active with exactly the pushed spec, on its old adapter exactly when that was built from the very same spec |
| `RegistryRules.GatewayHashSeparates` | internal/adapters/clients.go:291-305 | under an injective digest two validated specs with the same hash differ in nothing but the id |
| `RegistryRules.StartedMeaning` | internal/adapters/registry.go:290-298 | the started ids are, in push order and once each, the accepted ids whose adapter is built anew |
| `RegistryRules.OrderDoesNotMatter` | internal/adapters/registry.go:246-322 | any permutation of the pushed specs gives the same registry, errors, draining and removed clients, and the same applied ids |
| `RegistryRules.PushIsFixedPoint` | internal/adapters/registry.go:286-314 | repeating a push builds, drains and removes nothing and leaves every entry, adapter included, as it is |
| `RegistryRules.SweepComplete` | internal/adapters/registry.go:301-314 | the removal loop ends in the declared registry, whatever the order of the ids |
| `RegistryRules.AcceptOne` | internal/adapters/registry.go:286-298 | accepting one spec changes the registry at its id alone |
| `Registries.Registry.AddEnv` | internal/adapters/registry.go:73-94 | registers an active environment client with its defaults filled in, without its secret, and touches no other entry |
| `Registries.EnvSpec` | internal/adapters/registry.go:77-87 | a missing id or type is the adapter's name, missing protocols are the type's, and no other field changes |
| `Registries.Registry.Lookup` | internal/adapters/registry.go:108-115 | finds exactly the registered clients, draining ones included |
| `Registries.Registry.Acquire` | internal/adapters/registry.go:121-142 | hands out a new lease exactly on registered clients that do not drain, and changes nothing when it refuses |
| `Registries.Registry.Release` | internal/adapters/registry.go:133-140 | the first release gives the lease back, later ones change nothing, counts stay exact |
| `Registries.CountsAcquire` | internal/adapters/registry.go:131 | the count of an id stays the number of open leases on it when one is taken |
| `Registries.CountsRelease` | internal/adapters/registry.go:136-138 | and when one is given back, where a count of zero is removed |
| `Registries.Registry.Names` | internal/adapters/registry.go:145-166 | the ids of the clients that accept downloads, each once, sorted |
| `Registries.Registry.CountIds` | internal/adapters/registry.go:246-249 | counts how often each trimmed id is pushed |
| `Registries.Registry.JudgeSpec` | internal/adapters/registry.go:267-285 | the checks in their order give the declared verdict on a spec |
| `Registries.Registry.TakeAccepted` | internal/adapters/registry.go:286-298 | an accepted spec keeps the adapter under an equal hash and builds one otherwise, and extends every result accordingly |
| `Registries.Registry.TakeRejected` | internal/adapters/registry.go:256-265 | a refused spec is reported once per id and keeps the API client that runs under it |
| `Registries.Registry.AcceptSpecs` | internal/adapters/registry.go:246-299 | the first loop of a push puts exactly the accepted specs into effect |
| `Registries.Registry.SweepOut` | internal/adapters/registry.go:301-321 | the second loop drains or removes exactly the API clients not kept, in any map order, and reports them sorted |
| `Registries.Registry.Apply` | internal/adapters/registry.go:243-323 | the whole push: registry, applied, errors, started in push order, draining, removed, the revision recorded only without errors; and that what runs afterwards is what was pushed |
| `Registries.AdapterKeptExactlyWhenUnchanged` | internal/adapters/registry.go:286-298 | on any registry whose entries are true to their adapters, as every method keeps it, a push leaves each accepted client running with the pushed spec, on its adapter exactly when that was built from the same spec |
| `Registries.StartedAreActive` | internal/adapters/registry.go:290-298 | every client reported as started is registered, active and as reported |
| `Registries.PushOrderDoesNotMatter` | internal/adapters/registry.go:246-322 | pushing the specs in another order gives the same registry up to adapters built, the same revision, applied ids and errors, and the same draining and removed lists |
| `Registries.RepeatedPushChangesNothing` | internal/adapters/registry.go:286-322 | repeating a push leaves registry and revision as they are and reports the same, with nothing started, draining or removed |
| `Registries.Registry.Reap` | internal/adapters/registry.go:328-341 | drops exactly the draining clients without lease and tracked job, reported sorted |
| `Registries.PushKeepsValid` | internal/adapters/registry.go:225-323 | a push keeps entries under their own ids, only API clients draining, and every leased client registered |
| `Pushes.EverySpecIsAnswered` | internal/adapters/registry.go:246-285 | the spec at each position is applied exactly when its id is valid, named at no other position and not the environment's, and the spec is valid; otherwise the first of these that fails is its error |
| `Pushes.OnlySpecsAreAnswered` | internal/adapters/registry.go:256-288 | every id reported comes from some position, and no list reports one twice |
| `Pushes.AppliedInOrder` | internal/adapters/registry.go:267-288 | the applied ids come in the order of the push |
| `Pushes.ErrorsInOrder` | internal/adapters/registry.go:256-266 | the errors come in the order in which their ids first appear |
| `Pushes.GoodSpecRuns` | internal/adapters/registry.go:286-298 | a good spec is registered after the push, active, listed without its secret, on an adapter built from all of it |
| `Pushes.OtherClients` | internal/adapters/registry.go:262-314 | clients of the environment and those an error names stay as they are; an API client no position names is draining afterwards when leased or in use, and gone otherwise |
| `Pushes.ReportsAreExact` | internal/adapters/registry.go:301-322 | the push reports as removed exactly the clients that are gone, as draining exactly those that began to, sorted, and records the revision exactly when there is no error |
| `Pushes.StartedExactlyWhenNew` | internal/adapters/registry.go:290-298 | a client is reported as started exactly when it runs on an adapter it did not have |
| `Base64.DecodeReadsBack` | internal/adapters/nzbget.go:163-182 | decoding the base64 of a payload gives the payload |
| `Base64.EncodeLength` | internal/adapters/nzbget.go:157 | the encoded length is the one the request computes in advance |
| `Base64.SymbolsOfTheAlphabet` | internal/adapters/nzbget.go:170-171 | the alphabet and the padding of the standard encoding, in order |
| `Base64.GroupKeepsBits` | internal/adapters/nzbget.go:170-171 | three bytes and their four values are the same 24 bits |
| `Base64.TailKeepsBits` | internal/adapters/nzbget.go:170-171 | one or two bytes at the end are filled up with zero bytes and padded |
| `Base64.PaddingOnlyAtEnd` | internal/adapters/nzbget.go:170-171 | padding stands in the last two places only, and only when the length is not a multiple of three |
| `Base64.ChunksConcatenateExactly` | internal/adapters/nzbget.go:170-171 | encoding chunk by chunk is encoding the whole exactly when the earlier chunk is a multiple of three bytes long |
| `Base64.SymbolsAreNotSpecial` | internal/adapters/nzbget.go:144 | base64 text holds no character JSON would escape |
| `Json.EscapeReadsBack` | internal/adapters/nzbget.go:146 | unescaping a marshalled string gives the original, bytes outside UTF-8 replaced |
| `Json.EscapedTextIsHarmless` | internal/adapters/nzbget.go:146 | a marshalled string holds no control character and none that has a meaning in HTML |
| `JsonReader.ValueReadsBack` | internal/adapters/nzbget.go:146-153 | any marshalled value is read back whatever text follows it, strings with bytes outside UTF-8 replaced |
| `JsonReader.ObjectReadsBack` | internal/adapters/nzbget.go:54 | an object marshalled from a map is read back field by field, in the order of its keys |
| `AppendStream.RefillKeepsText` | internal/adapters/nzbget.go:174-181 | encoding the next chunk leaves the text still to be delivered the same |
| `AppendStream.ReadDeliversNext` | internal/adapters/nzbget.go:173-185 | a read delivers the next characters of that text, at least one into a non-empty buffer, and reports EOF exactly at its end |
| `AppendStream.Base64Reader.EncodeChunk` | internal/adapters/nzbget.go:179 | the chunk is encoded into the reused buffer, or a larger one when it does not fit |
| `AppendStream.Base64Reader.Refill` | internal/adapters/nzbget.go:174-181 | the buffer is overwritten only once it has been read to its end |
| `AppendStream.Base64Reader.CopyOut` | internal/adapters/nzbget.go:182-183 | copies the front of the encoded text and moves past it, leaving the rest of the caller's buffer alone |
| `AppendStream.Base64Reader.Read` | internal/adapters/nzbget.go:173-185 | the reader object with its one buffer does what the value-level read does |
| `AppendStream.AnyReadsDeliverTheText` | internal/adapters/nzbget.go:158-160 | for any buffer sizes the reads deliver a prefix of the body, all of it at EOF, and non-empty buffers reach EOF |
| `AppendStream.BodyIsMarshalledCall` | internal/adapters/nzbget.go:145-161 | head, content and end make the marshalled call exactly when parameters follow the content; the declared length is the body's |
| `AppendStream.StreamedAppendIsMarshalledCall` | internal/adapters/nzbget.go:141-161 | every reading of a fresh body delivers the bytes `call` would marshal, as many as declared |
| `AppendStream.ReceiverReadsTheCall` | internal/adapters/nzbget.go:145-160 | a JSON reader applied to the delivered body gets the append call with the file name, a text that decodes to the payload bit for bit, and the further parameters, and nothing is left over |
| `ODownloader.FoldODL` | internal/adapters/odownloader.go:171-228 | completed iff non-empty and all links finished, failed iff some broke and none runs; sums, first title, last message and files as the links give them |
| `ODownloader.StateInWords` | internal/adapters/odownloader.go:193-226 | when a package is completed, failed or downloading, in the client's own state words |
| `ODownloader.OneLink` | internal/adapters/odownloader.go:186-216 | a package of one link is reported as that link |
| `ODownloader.OneMoreLink` | internal/adapters/odownloader.go:186-216 | one more link adds its bytes and speed, gives title and native state where none did, replaces the message by its own, and adds its path to the files of a completed package |
| `ODownloader.FoldIsOrderFree` | internal/adapters/odownloader.go:186-227 | state and sums do not depend on the order of the links |
| `ODownloader.FoldMovesForward` | internal/adapters/odownloader.go:166-227 | while no link breaks, the state only moves queued, downloading, completed as links advance |
| `NzbGet.Describe` | internal/adapters/nzbget.go:283-323 | the queue first, then the history, and an error unless both lists came back |
| `NzbGet.GroupIsReported` | internal/adapters/nzbget.go:234-253 | a queued job is never over: it waits when queued or paused and runs otherwise, with the group's own numbers |
| `NzbGet.GroupTimeLeft` | internal/adapters/nzbget.go:243-245 | the time left is the remaining size at the current rate, rounded toward zero, and unknown without a rate |
| `NzbGet.HistoryIsReported` | internal/adapters/nzbget.go:256-276 | a job in the history is completed exactly when its status starts with "SUCCESS" and failed otherwise, with the bytes, files and message that go with it |
| `NzbGet.QueueComesFirst` | internal/adapters/nzbget.go:286-297 | the first group with the id is reported, whatever the history says |
| `NzbGet.HistoryComesNext` | internal/adapters/nzbget.go:299-309 | when no group is listed with it the first history item with the id is, even if the queue could not be listed |
| `NzbGet.ErrorExactly` | internal/adapters/nzbget.go:311-318 | an error is answered exactly when a call failed and the job is in no list that came back |
| `Text.AtoiOfNumeral` | internal/adapters/nzbget.go:284 | a decimal job id that fits is read as its value |
| `Text.AtoiOfOther` | internal/adapters/nzbget.go:284 | what is no numeral is read as 0 |
| `NzbGet.NotFoundExactly` | internal/adapters/nzbget.go:310-322 | "not found" is answered exactly when both calls succeeded and neither list holds the job |
| `NzbGet.StayingJobIsNeverNotFound` | internal/adapters/nzbget.go:278-323 | a job that moves only from queue to history, even between the two calls, is never answered not-found |
| `NzbGet.RequeuedJobCanBeMissed` | internal/adapters/nzbget.go:283-323 | a job put back from history into the queue between the calls is answered not-found: the direction matters |
| `NzbGet.Adopt` | internal/adapters/nzbget.go:418-442 | lists id and title of the queued groups of the client's own category, in order, nothing without a category |
| `NzbGet.AdoptedExactly` | internal/adapters/nzbget.go:435-440 | a job is listed exactly when it is a queued group of the client's own category |
| `NzbGet.AdoptedJobIsInProgress` | internal/adapters/nzbget.go:411-442 | asked at that moment about a listed job id, `Describe` answers that it is in progress |
| `QBittorrent.Adopt` | internal/adapters/qbittorrent.go:456-487 | the loop lists tag and name of the adoptable torrents the gateway marked, in order |
| `QBittorrent.TorrentIsReported` | internal/adapters/qbittorrent.go:317-348 | a torrent is failed in the two error states, else completed in the six seeding states or at full progress, else downloading, with its own numbers and files |
| `QBittorrent.SplitAtCommas` | internal/adapters/qbittorrent.go:479 | the tags are the parts between commas |
| `QBittorrent.AdoptedExactly` | internal/adapters/qbittorrent.go:445-487 | a job is listed exactly when the first tag that marks a torrent as the gateway's is its id, and that torrent is neither broken nor complete and of this category or of none |
| `QBittorrent.AdoptedJobIsInProgress` | internal/adapters/qbittorrent.go:245-287 | asked at that moment for the torrents with a listed tag, `Describe` answers that the job is in progress |
| `Holdings.ListedIsIncomplete` | cmd/server/main.go:730-758 | adoption lists no job its client has completed by its own state words, for every kind of client |
| `Holdings.ToldOnlyWhenComplete` | cmd/server/main.go:586-599 | a poll is told "completed" only of a job whose client holds it as a success, even if the client changed between the calls of one answer |
| `Tracking.PollKeepsWellFormed` | cmd/server/main.go:577-643 | no act of a poll breaks: keys match their records, one task per key, events carry the wanted item of their record |
| `Tracking.StepKeepsWellFormed` | cmd/server/main.go:489-643 | nor does any other step; no step forgets a record or changes what it is for |
| `Lifecycle.StepKeepsTerminalInv` | cmd/server/main.go:542-643 | after a terminal event the record is only untracked, at every step of every interleaving |
| `Lifecycle.TerminalEventIsLast` | cmd/server/main.go:542-643 | in every run a record has at most one terminal event and no event after it |
| `Lifecycle.StepKeepsWindowInv` | cmd/server/main.go:606-623 | a running grace window was started by a not-found answer and no later answer found the job, at every step |
| `Lifecycle.LostOnlyAfterGrace` | cmd/server/main.go:606-619 | a loss comes more than ten minutes after a not-found answer, and every answer about the job in between failed or was not-found |
| `Lifecycle.FoundJobIsNeverLost` | cmd/server/main.go:606-623 | a job never answered not-found is never declared lost |
| `Lifecycle.StayingNzbGetJobIsNeverLost` | internal/adapters/nzbget.go:278-323 | an NZBGet job that stays in queue or history is never declared lost, under any pattern of failed calls |
| `Lifecycle.OnlyAnswersMoveTheWindow` | cmd/server/main.go:692-714 | exactly how each step moves a window: a not-found answer that is acted on starts one that is not running, any other answer ends it, and nothing else touches it |
| `GraceWindow.UnfoundJobIsLost` | cmd/server/main.go:606-623 | in every run: once a poll acts on a not-found answer, the key stays tracked under that record and no later answer finds the job, a poll that acts on a not-found answer more than ten minutes later publishes the loss and nothing else, and leaves the record untracked |
| `GraceWindow.StaysMissing` | cmd/server/main.go:694-714 | between the two the record stays missing since the first, whatever adds, adoptions, polls and failed calls interleave |
| `Lifecycle.KeepsTheItem` | cmd/server/main.go:489-507 | while a key stays tracked and no add returns it again, its record and wanted item stay |
| `Lifecycle.AddWins` | cmd/server/main.go:306-310 | from the add's tracking on the record carries the add's wanted item, whatever adoptions and polls run before or after |
| `Gateways.TrackedJob.constructor` | cmd/server/main.go:306-310 | a new record has the fields it was given and starts queued, without samples and without a window |
| `Gateways.KeysAreFaithful` | cmd/server/main.go:489-512 | keys of colon-free clients are equal exactly for the same job of the same client |
| `Gateways.Gateway.Track` | cmd/server/main.go:489-493 | the record replaces whatever its key held, and nothing else changes |
| `Gateways.Gateway.TrackIfAbsent` | cmd/server/main.go:498-507 | tracks exactly when the key was free, and reports it |
| `Gateways.Gateway.Untrack` | cmd/server/main.go:509-513 | forgets exactly this key |
| `Gateways.Gateway.HasJobs` | cmd/server/main.go:517-526 | the scan finds a job exactly when one of the client's records is tracked, which for colon-free clients is when one of its keys is |
| `Gateways.Gateway.Snapshot` | cmd/server/main.go:528-536 | every tracked record, once |
| `Gateways.Gateway.MarkMissing` | cmd/server/main.go:694-706 | starts a window that is not running, leaves a running one, and is true exactly once it is over |
| `Gateways.Gateway.ClearMissing` | cmd/server/main.go:708-714 | ends the window of the record now tracked, if any |
| `Gateways.Gateway.Observe` | cmd/server/main.go:656-665 | records the snapshot in the record now tracked, if any, and in no other |
| `Gateways.Gateway.PollOne` | cmd/server/main.go:577-643 | the events of one poll and what is tracked afterwards, for every answer and every record under the key |
| `Gateways.PollPublishes` | cmd/server/main.go:590-641 | which event each answer leads to, for which title, and when the job is forgotten: completed, failed, not found for more than ten minutes, or in progress |
| `Gateways.PollStaysSilent` | cmd/server/main.go:578-591 | without an answer nothing is published, and the job is forgotten exactly when its client is gone |
| `Gateways.PollRemembers` | cmd/server/main.go:656-665 | what is remembered of a job that goes on: the answer, its time, and since when it has been missing |
| `Gateways.Gateway.Adopt` | cmd/server/main.go:748-758 | exactly the listed jobs are added, without a wanted item; those already tracked keep their records |
| `PollRuns.OneRun` | cmd/server/main.go:577-643 | given what a poll finds and hears, there is one undisturbed run of it to its end |
| `PollRuns.UndisturbedPoll` | cmd/server/main.go:577-643 | every run made of one poll's own steps, to its end, does what the poll method does, and touches no other job |
| `PollRuns.OverdueJobIsLost` | cmd/server/main.go:609-619 | once a window is over, every undisturbed poll that is answered not-found publishes the loss and untracks the job |
| `PollRuns.PollTwice` | cmd/server/main.go:606-623 | two polls of a tracked job answered not-found more than ten minutes apart publish progress and then the loss, and the job is forgotten |
| `Protocol.LeaseTaken` | internal/adapters/registry.go:131 | lease counts stay the number of unreleased leases when one is taken |
| `Protocol.LeaseGiven` | internal/adapters/registry.go:133-140 | and when one is released, with the id absent at zero |
| `Protocol.ActKeepsInv` | internal/adapters/registry.go:301-341 | one turn of the push or reap loop keeps the invariant, though jobs were tracked and untracked since the answer |
| `Protocol.TrackingKeepsInv` | cmd/server/main.go:265-314 | tracking a job under a lease keeps the client of every tracked job registered, also in the middle of a push |
| `Protocol.MoveKeepsInv` | cmd/server/main.go:555-575 | every move of adds, adoptions, polls, removals, pushes and reaps keeps the whole invariant |
| `Safety.NothingIsOrphaned` | cmd/server/main.go:265-314 | in every reachable state tracked jobs and leases have a registered client, counts are exact, and the revision is that of the last clean push |
| `Safety.ScanAgreesWithKeys` | cmd/server/main.go:515-526 | in every such state the scan of records and the keys agree on whether a client has jobs |
| `Safety.GoneClientHasNoTrackedJob` | cmd/server/main.go:578-585 | a poll finds its client gone only when the job is not tracked any more |
| `Safety.OnlyIdleClientsLeave` | internal/adapters/registry.go:301-341 | a client leaves only when it is an API client without lease and tracked job, in a reap only when it drains |
| `Safety.PushFollowsTheRules` | internal/adapters/registry.go:243-323 | a push carried out client by client ends in the declared registry for the answers it got |
| `Safety.ReapFollowsTheRules` | internal/adapters/registry.go:328-341 | so does a reap |
| `AdapterIdentity.ClientsNeverShareAdapters` | internal/adapters/registry.go:286-298 | in every reachable state each client has an adapter of its own, and an API client lists the spec that adapter was built from |
| `AdapterIdentity.RetiredForGood` | internal/adapters/registry.go:290-341 | once no client runs on an adapter, none does ever again, in any run |
| `AdapterIdentity.InterleavedPushRunsTheSpecs` | internal/adapters/registry.go:286-314 | when a push ends, however it interleaved, every accepted client runs with the pushed spec, on its old adapter exactly when that was built from the same spec |
| `Safety.DrainingNeverGrows` | internal/adapters/registry.go:125-131 | until a push applies a draining client again its leases never become more and, once there are none, nor do its tracked jobs |
| `Safety.NextReapDropsIdle` | internal/adapters/registry.go:328-341 | a draining client with neither is gone after the next reap, whatever interleaves |
| `Liveness.LockIsGivenBack` | internal/adapters/registry.go:301-341 | from any state a push or reap that holds the registry lock can ask about the clients left, act on the answers and give the lock back |
| `Liveness.AnyPushCanRun` | internal/adapters/registry.go:243-323 | whatever is registered, leased and tracked, any push can begin when the lock is free and run to its end |
| `Liveness.AnyReapCanRun` | internal/adapters/registry.go:328-341 | so can a reap when no pass is under way |
| `Liveness.AnyJobIsPolled` | cmd/server/main.go:558-573 | a pass can begin when none is under way, and in it every tracked job can be polled to the end, with the outcome of the poll method for any answer |
| `Safety.TrackerOfRun` | cmd/server/main.go:542-643 | the tracked jobs of any run of the protocol are a run of the tracker, so what holds of those holds here |
| `Safety.TerminalEventIsLast` | cmd/server/main.go:542-643 | in every run of the protocol a record ends at most once, and silently after that |
| `Restarts.StepKeepsSiteInv` | cmd/server/main.go:125-128 | a completed event means its client has completed the job and nothing will track it again, at every step of tracker and clients and across crashes |
| `Restarts.CompletedOnceAcrossRestarts` | cmd/server/main.go:125-141 | any number of crashes anywhere, with adoption listing and polls told what the adapters make of the clients' contents: at most one completed event per job |
| `AddBudget.TotalBounded` | cmd/server/main.go:50-70 | what is reserved lies between the small and the largest body per reservation |
| `AddBudget.TwoFit` | cmd/server/main.go:64-70 | with fewer than two large adds in flight another of the largest size fits |
| `AddBudget.BudgetInBytes` | cmd/server/main.go:50-70 | the limits in bytes: what counts as small, what a body counts for, and when it is refused |
| `AddBudget.Budget.Admit` | cmd/server/main.go:799-819 | reserves the declared length, the largest when unknown or too large, and refuses exactly when that does not fit, never with fewer than two in flight |
| `AddBudget.Budget.Release` | cmd/server/main.go:813-818 | gives back exactly what was reserved, once; nothing is reserved when nothing is in flight |
| `Servers.UsedClientsStay` | internal/adapters/registry.go:301-314 | a push takes no client away that has tracked jobs |
| `Servers.Server.HandleAdd` | cmd/server/main.go:239-314 | the answer to every add by the checks in their order, the one job handed to an adapter field by field, and exactly one new record with the request's item when it is accepted; leases and budget are as before |
| `Servers.AddIsAnswered` | cmd/server/main.go:249-304 | the first check an admitted add fails decides its reply and nothing is handed over; otherwise the client's adapter is handed the request's job, with the client's save path and category where it has none, and its answer decides |
| `Servers.Server.AddLeased` | cmd/server/main.go:281-310 | the job built step by step is the one handed over, at most once, and only a job the client accepted is tracked |
| `Servers.Server.LeaseAndAdd` | cmd/server/main.go:265-310 | the job is tracked before the lease is given back, so its client is registered throughout |
| `Servers.Server.HandleRemove` | cmd/server/main.go:317-330 | exactly this job is forgotten, and only when its client removed it |
| `Servers.Server.PollJobs` | cmd/server/main.go:558-571 | a pass polls every tracked job once: what is tracked and published about each key afterwards is what its own poll comes to |
| `Servers.PassTurn` | cmd/server/main.go:562-570 | polling one more job settles its key and leaves the records and events of all others alone, so the order does not matter |
| `Servers.Server.PollAll` | cmd/server/main.go:558-575 | then exactly the draining clients without lease and without a job still tracked are dropped |
| `Servers.Server.AdoptClient` | cmd/server/main.go:730-762 | every job an active client lists is tracked afterwards, as its own, with its type and without a wanted item, every record there was is kept, and nothing else is added |
| `Servers.Server.AdoptStarted` | cmd/server/config.go:75-82 | the same for all clients a push started |
| `Servers.Server.ApplyConfig` | cmd/server/config.go:59-92 | a push with the answers of the tracked jobs, then adoption: every job a started client lists is tracked, none is lost, and every tracked job keeps a registered client |

## Left out

- HTTP routing and request decoding, authentication, logging, metrics, Kafka delivery, the started event and configuration from the environment: input and output. A request body is decoded or it is not.
- `Server.dfy` runs one call after the other, adoption after a push included; what may happen between the locks of one call is the subject of `Protocol.dfy`.
- The calls to the clients themselves, their sessions, retries and redirects: an answer is a free choice, a reply list a parameter.
- SHA-256 and `url.Parse`: function parameters of the registry.
- The registry's entries are values in its map, not objects shared by reference: a client is only ever read under the lock and copied out, so the sharing of an entry is not observed.
- Registries.Registry.Apply: takes the in-use answers as a function of the id, because each id is asked at most once; that answers change while the push runs is modelled in `Protocol`.
- `Config`, `List` and `Active` beyond their ids: listings of what the registry holds.
- The goroutines and the limit of eight in `pollAll`: the tasks of a pass interleave without a limit.
- Adoption after a push is a lease holder that may track jobs at any time, not only after the push that started its client; this allows more runs than the code has. A holder may also track several jobs.
- `Protocol` covers one life of the process; crashes are in `Tracking` and `Restarts`.
- Restarts.CompletedOnceAcrossRestarts: for environment clients only, as adoption by a push lists jobs first and tracks them later while polls already run; it assumes that a client keeps completed jobs completed, that an add gets an id not listed or added before, that one torrent carries a tag, and that NZBGet does not hold a job in queue and history at once.
- Lifecycle.AddWins: assumes no further add returns the same job id while the key is tracked.
- NzbGet.StayingJobIsNeverNotFound: assumes no group's status is literally "not-found"; NZBGet's own words are upper case.
- QBittorrent.AdoptedJobIsInProgress: assumes the tag marks one torrent, as the gateway's generated tags do, and that the client's own filter lists the torrents carrying a tag.
- Integers are unbounded except in the sums of oDownloader links, which wrap at 64 bits. Torrent progress is a real number.
- The Lo/Hi size pairs of NZBGet: a size is one number.
- Percentages, derived rates and the optional 32-bit fields of progress events: display helpers.
- The text of error messages; a refusal is modelled by its reason.
- The initial state of a job's view before its first poll is empty in the code and queued here.
