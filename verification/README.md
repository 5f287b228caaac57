# CoTune, modelled in Dafny

CoTune is a peer-to-peer music node. Each node stores tracks, indexes the tokens of their titles
and artists, announces tokens and content ids (CTIDs) in a DHT, answers index queries of other
nodes, searches the network, and streams files. This project models that logic and proves what it
guarantees, for every input and every run, in which the atomic actions named below interleave in
any order.

| file | what it models |
|---|---|
| `Text.dfy` | the search tokenizer |
| `Library.dfy` | the track store, its substring scan, and the scan against the tokens |
| `TokenIndex.dfy` | the in-memory index token -> CTIDs |
| `Node.dfy` | a node's operations as sequences of atomic actions; what every action keeps |
| `Runs.dfy` | runs: any operations interleaved action by action, tracks added, restarts |
| `Daemon.dfy` | share, process, announce and add in imperative form, tied to those runs |
| `Dht.dfy` | announcing, and capped provider lookup |
| `Search.dfy`, `Merge.dfy` | index query handler, local and network search, merge |
| `Discovery.dfy` | what a search finds at nodes that such runs reach |
| `Limits.dfy` | when a whole search keeps its result limit |
| `Network.dfy` | runs of a whole network, and searches in the states they reach |
| `Providers.dfy` | which announced CTIDs have a provider record |
| `Repair.dfy` | what shares, processing and periodic announces leave behind when they complete among other operations |
| `Frames.dfy` | length-prefixed frames under truncation |
| `Transfer.dfy` | chunked file transfer and failover between providers |
| `Fetching.dfy` | from a search to the fetched file, in runs of a whole network |
| `Pcm.dfy`, `Resample.dfy` | canonical PCM: byte codec, downmix, interpolation |
| `CtrQueue.dfy` | the bounded work queue with its workers |
| `Player.dfy` | the playback queue |
| `Options.dfy`, `Sequences.dfy`, `Arithmetic.dfy` | small helpers |

How concurrency is modelled. Every access of an operation to shared state (store write, index
update, DHT announcement) is one action, and an operation in progress is the list of actions it
has still to do. `Runs.After` is the state after any sequence of events: starting operations,
performing one action of any of them, adding tracks, restarting. The store and the published DHT
records survive a restart; index and bookkeeping do not. The class `Daemon.Daemon` performs the
same operations as code with loops; each is proved to be its plan executed to the end, and `Valid`
says that the current state is reached by a run, so everything proved of runs holds of it. `oks`
are the answers of store and network, and `Refusals` makes sure that no refusal is invented.

A reply to an index query reads the index at one moment and the store at a later one, since the
source unlocks the index in between. A search reads its own store, its index, and its store again at
three moments, and every reply it gets may come from other moments of the replying node's run.

Where the code falls short of its intent, the model follows the code and the exact condition is
proved:

- The store scan lower-cases ASCII only, the tokenizer all of Unicode. A text with a non-ASCII
  capital may not be found under its own token (`ScanHitsIff`, `OneWordFoundIffPlain`,
  `ScanMissesCyrillicCapital`).
- The query handler scans the store only when the index has no entry. After a restart, sharing one
  track hides the others with the same token until the next announce. The handler answers with an
  announced CTID exactly when its index lists it, or has no entry and the scan spells it
  (`AnsweredAcrossRestarts`, `PlainTrackIsAnswered`, `ShareAfterRestartHidesOthers`,
  `AnnounceRebuildsIndex`; the last holds whatever other operations do during the announce).
- Processing a track announces its tokens even if the announcement of its CTID was refused: it is
  then found by searches, but no lookup yields a provider. Nothing else leads there, and one such
  operation does exactly when that one answer is a refusal. A complete announce of which nothing is
  refused repairs it (`AnnouncedIsProvided`, `ProcessProvidesIff`, `FindableWithoutProvider`,
  `AnnounceRestoresRecords`).
- A stream cut at a frame boundary, or right after a frame header, looks like a clean end, and the
  receiver then reports success for a partial file. It also stops at the announced number of chunks,
  so it loses the tail when reads are short, and it never reads an error frame that comes behind
  that many. Reported success means the whole file exactly when neither happens with part of the
  file missing, and an error frame that arrives fails the attempt exactly when it comes before that
  number of chunks (`TransferOutcome`, `SuccessMeansWholeFileIff`, `ErrorFrameFailsIff`,
  `EarlyEndIsSuccess`, `ShortReadsLoseTail`, `ErrorFrameMayBeIgnored`).
- The merge never cuts local results, so it exceeds the limit by as much as they do; once they fill
  it, a new network result adds one more. A search keeps its limit, whatever order maps are visited
  in, exactly when the CTIDs of the own matching tracks are below it, or just at it with no other
  candidate (`MergeKeepsLimitIff`, `LocalResultsAreNotCut`, `SearchKeepsLimitIff`,
  `SearchExceedsLimit`).
- A stopped and restarted CTR service may accept tracks and never work on them: without another
  Stop, a service can come to that exactly when a Stop has taken effect before (`MayDieIffStopped`,
  `RestartMayLeaveServiceDead`, `DeadStaysDead`).
- The player's `next` with repeat-all follows the queue from every position exactly when track ids
  are unique, as long as no source is loaded, and exactly when equal ids stand next to each other
  while sources are loaded (`NextFollowsIffUnique`, `NextFollowsIffGrouped`).
- The documentation speaks of DHT keys with `/ctid/` and token prefixes; the code wraps the bare
  digests, so CTIDs and token hashes share one key space, and the model does the same
  (`Node.CidOf`, `Node.RecordOk`).

## Model

| member | source | states |
|---|---|---|
| Text.Tokenize | go-backend/internal/search/search.go:303-327 | blanking six punctuation marks one after the other and splitting on white space gives the runs between white space or punctuation |
| Text.SplitBlanked | go-backend/internal/search/search.go:307-316 | blank-then-split equals splitting at separators, for every text |
| Text.SplitIsRuns | go-backend/internal/search/search.go:315-316 | the words are exactly the maximal separator-free runs |
| Text.TokensAreRuns | go-backend/internal/search/search.go:303-327 | a string is a token exactly when it is a maximal run of the lower-cased text of at least two bytes; tokens are lower-case and free of separators |
| Text.TokensSplitAt | go-backend/internal/search/search.go:307-316 | every comma, full stop, exclamation or question mark, hyphen, underscore and every one of the 25 Unicode white-space characters splits a text: its tokens are those of the two sides |
| Text.TextWithoutEndsIsOneToken | go-backend/internal/search/search.go:303-327 | no other character does: a text without them is one lower-cased token, or none when that takes fewer than two bytes |
| Text.LongTextIsOneToken | go-backend/internal/search/search.go:303-327 | so two or more such characters are always one token |
| Text.WidthIsUtf8 | go-backend/internal/search/search.go:319-324 | a code point takes at most 1, 2 or 3 bytes exactly when it fits 7, 11 or 16 bits |
| Text.OneCharacter | go-backend/internal/search/search.go:319-324 | one such character is a token exactly when its lower case is outside ASCII |
| Text.TokensOfJoined | go-backend/internal/search/search.go:303-327 | the tokens of two texts joined by a blank are the tokens of the first followed by those of the second |
| Text.TokensReadBack | go-backend/internal/search/search.go:303-327 | any list of clean tokens is read back from its space-joined text |
| Text.TokenizeIdempotent | go-backend/internal/search/search.go:303-327 | tokenizing the joined tokens gives the same tokens |
| Library.Contains | go-backend/internal/storage/storage.go:183-203 | the nested loop finds a substring exactly when it occurs |
| Library.ContainsToken | go-backend/internal/storage/storage.go:163-181 | true exactly when the lower-cased text contains the token |
| Library.ToLower | go-backend/internal/storage/storage.go:163-174 | the byte loop lower-cases ASCII letters and nothing else |
| Text.AsciiLowerIs | go-backend/internal/storage/storage.go:163-174 | code points 65 to 90 grow by 32, nothing else changes |
| Library.Storage.SaveTrack | go-backend/internal/storage/storage.go:43-58 | files the track under its id, replacing the old one, or changes nothing when the write is refused |
| Library.Storage.GetTrack | go-backend/internal/storage/storage.go:61-77 | the track filed under the id; fails exactly when there is none |
| Library.Storage.GetAllTracks | go-backend/internal/storage/storage.go:80-108 | lists every stored track once |
| Library.Storage.FindTrackByCTID | go-backend/internal/storage/storage.go:120-133 | returns a stored track with the CTID; fails exactly when there is none |
| Library.Storage.FindTracksByToken | go-backend/internal/storage/storage.go:136-152 | returns each stored track whose title or artist contains the token, once, and no other |
| Library.HitIff | go-backend/internal/storage/storage.go:136-203 | the scan finds a track exactly when its title or its artist holds the token somewhere up to the case of ASCII letters |
| Library.ScanHitsIff | go-backend/internal/storage/storage.go:136-203 | the scan hits a text for a token exactly when the text spells the token somewhere without a non-ASCII capital |
| Library.ScanCoversTokens | go-backend/internal/storage/storage.go:136-203 | a text without non-ASCII capitals is hit for each of its tokens, so the scan covers the index |
| Library.OneWordFoundIffPlain | go-backend/internal/storage/storage.go:136-203 | a one-word text is found under its own token exactly when it has no non-ASCII capital |
| Library.ScanMissesCyrillicCapital | go-backend/internal/storage/storage.go:163-174 | a Cyrillic title that the scan misses for its only token |
| TokenIndex.EntryIsContributions | go-backend/internal/search/search.go:261-300 | after any calls, an entry is the CTIDs brought to its token, in order of first arrival |
| TokenIndex.IndexMeetsSpec | go-backend/internal/search/search.go:261-300 | a CTID is listed under a token exactly when some call carried a recognised track with that non-empty CTID and that token; no duplicates, no empty lists |
| TokenIndex.RepeatedCallIsNoOp | go-backend/internal/search/search.go:287-298 | repeating any earlier call changes nothing |
| TokenIndex.AnnouncedTokensAreIndexed | go-backend/internal/daemon/daemon.go:189-191 | the tokens announced for title + " " + artist are the tokens indexed for title and artist separately |
| Search.SearchService.UpdateLocalIndex | go-backend/internal/search/search.go:261-300 | in whatever order the token set is visited, the index becomes the specified one |
| Node.StepKeepsOk | go-backend/internal/daemon/daemon.go:170-259 | every action of every operation keeps the state well, only grows store and index, and never loses the index update that an announced token still awaits |
| Node.SharePlanOk | go-backend/internal/daemon/daemon.go:216-259 | sharing announces and indexes only a stored recognised track, and each announced token is indexed or about to be |
| Node.ProcessPlanOk | go-backend/internal/ctr/ctr.go:107-136 | the same for processing with its callback |
| Node.AnnouncePlanOk | go-backend/internal/daemon/daemon.go:170-198 | the same for the periodic announce |
| Node.PlanOkMonotone | go-backend/internal/daemon/daemon.go:170-259 | an operation in progress stays well whatever other operations do meanwhile |
| Runs.RunsKeepOk | go-backend/internal/daemon/daemon.go:170-343 | the invariant holds after every run, any interleaving and restarts included |
| Runs.EventKeepsOk | go-backend/internal/daemon/daemon.go:170-343 | each event keeps it: starting an operation, any action of any operation, adding a track, restarting |
| Runs.AnnouncedTokensAreAnswerable | go-backend/internal/daemon/daemon.go:170-259 | at any moment, a token announced since the start is listed in the index with its CTID, unless an operation in progress still owes that index update |
| Runs.UnrecognizedTracksNeverLeak | go-backend/internal/ctr/ctr.go:107-136 | at any moment, what is announced, indexed or recorded stems from a stored recognised track with that CTID (and token) |
| Runs.AnswersAreSound | go-backend/internal/search/index_protocol.go:83-125 | every answer, from an index entry read at any earlier moment, has distinct CTIDs of stored recognised tracks |
| Runs.RunGrows | go-backend/internal/daemon/daemon.go:170-343 | from any moment of a run to the end, stored tracks stay and only gain their CTID, and DHT records stay |
| Runs.RestartForgets | go-backend/internal/search/index_protocol.go:91-92 | a restart keeps store and DHT records and forgets index, bookkeeping and operations |
| Runs.AnsweredAcrossRestarts | go-backend/internal/search/index_protocol.go:83-107 | a token announced at any time, even before a restart or in the middle of a share, is answered with its CTID exactly when the entry read lists it, or is empty and a recognised track with the CTID spells the token without a non-ASCII capital |
| Runs.PlainTrackIsAnswered | go-backend/internal/search/index_protocol.go:83-107 | one plain track behind the announced token is enough for an answer; its CTID is then missing exactly when the entry lists only others |
| Runs.ScanCoversIndex | go-backend/internal/storage/storage.go:136-203 | at any moment of any run the scan finds what the index lists exactly when it is spelled, so always for plain tracks |
| Repair.AnnounceRebuildsIndex | go-backend/internal/daemon/daemon.go:170-198 | in every run, once a periodic announce is complete, all tracks that were shareable at its start are answerable under all their tokens, whatever the network answers and other operations do meanwhile |
| Repair.AnnounceAloneRebuildsIndex | go-backend/internal/daemon/daemon.go:170-198 | the same for an announce that runs alone, from any state |
| Repair.AnnounceRestoresRecords | go-backend/internal/daemon/daemon.go:170-198 | if none of its announcements is refused, every such track then has a provider record for its CTID, and is announced and answerable under each of its tokens, whatever was refused before |
| Repair.AnnounceNeverOwes | go-backend/internal/daemon/daemon.go:180-196 | however far a periodic announce has come, all tokens that it announced are answerable, since it indexes first |
| Repair.ShareAnnounces | go-backend/internal/daemon/daemon.go:216-259 | in every run, a share of a track that can be shared, of which nothing is refused, ends with the track's CTID recorded and every one of its tokens announced, recorded and answerable, whatever other operations do meanwhile |
| Repair.ProcessAnnounces | go-backend/internal/ctr/ctr.go:107-136 | the same for processing a recognised track, which also stores the CTID |
| Repair.FinishedPlanIndexed | go-backend/internal/daemon/daemon.go:170-198 | in every run, an operation that cannot abort has made every index update it contained by the time it is done |
| Runs.ShareAfterRestartHidesOthers | go-backend/internal/search/index_protocol.go:91-107 | after a restart, sharing one track leaves it the only answer for a token it has in common with others |
| Runs.ExecIsRun | go-backend/internal/daemon/daemon.go:216-259 | executing an operation to its end is a continuation of the run |
| Dht.DhtService.Provide | go-backend/internal/dht/dht.go:228-249 | records the CTID exactly when the network takes it and it is a 32-byte hex digest |
| Dht.DhtService.ProvideToken | go-backend/internal/dht/dht.go:281-306 | the same for a token hash |
| Dht.DhtService.FindProviders | go-backend/internal/dht/dht.go:252-278 | the first peers that arrive up to the cap, at least one; fails exactly on an invalid digest |
| Node.DigestIsHexOf32Bytes | go-backend/internal/dht/cid.go:19-60 | a digest is the hex text of 32 bytes |
| Node.SameKeyIffSameBytes | go-backend/internal/dht/cid.go:19-60 | two digests share a DHT key exactly when they stand for the same bytes |
| Daemon.Daemon.ShareTrack | go-backend/internal/daemon/daemon.go:216-259 | it is the share plan run to its end; success means CTID announced and recorded, and answerable under every token; if nothing is refused every token is announced and recorded too; a shareable track fails only if something was refused; what each error means |
| Daemon.Daemon.ProcessBeforeShare | go-backend/internal/daemon/daemon.go:222-234 | on-demand processing leaves the stored track with its CTID and the rest of the share to do, or aborts it |
| Daemon.Daemon.ShareReady | go-backend/internal/daemon/daemon.go:236-258 | the rest of the share: CTID, tokens, index; nothing is indexed when it fails |
| Daemon.Daemon.ProcessTrackNow | go-backend/internal/ctr/ctr.go:107-136 | it is the process plan, or its abort when the save is refused |
| Daemon.Daemon.OnTrackProcessed | go-backend/internal/daemon/daemon.go:200-213 | it is the callback plan |
| Daemon.Daemon.ProcessTrack | go-backend/internal/daemon/daemon.go:336-343 | success stores the CTID of the file; if nothing is refused a recognised track is announced under CTID and all tokens and answerable; it fails only if decoding or something else is refused |
| Daemon.Daemon.AnnounceAllTracks | go-backend/internal/daemon/daemon.go:170-198 | it leaves every shareable track answerable under all its tokens, whatever is refused, and announced under its CTID and all its tokens if nothing is; it is the announce plan of a listing of the store |
| Daemon.Daemon.AnnounceTrack | go-backend/internal/daemon/daemon.go:176-196 | the part of one track, tokens skipped when its CTID is refused |
| Daemon.Daemon.AnnounceTrackTokens | go-backend/internal/daemon/daemon.go:189-196 | announces each token of title and artist in turn and ignores refusals |
| Daemon.Daemon.AddTrack | go-backend/internal/daemon/daemon.go:304-333 | stores a new track, recognised exactly when title and artist are given; fails exactly when copying or saving fails, and then changes nothing |
| Search.SearchService.HandleIndexQuery | go-backend/internal/search/index_protocol.go:74-131 | replies with the index entry, or, without one, with the distinct CTIDs of recognised tracks that the scan hits; metadata from a stored track with the CTID or "Unknown" |
| Search.SearchService.ReplyTo | go-backend/internal/search/index_protocol.go:91-131 | the same for an entry read at any moment before |
| Search.SearchService.ScanFor | go-backend/internal/search/index_protocol.go:93-107 | the distinct CTIDs of the recognised tracks that the scan hits, and no others |
| Search.ReplyCtids | go-backend/internal/search/index_protocol.go:83-107 | a reply lists the entry that was read, or without one exactly the CTIDs of recognised tracks whose title or artist holds the token |
| Search.ReplyFields | go-backend/internal/search/index_protocol.go:109-125 | title and artist of the one stored track with the CTID, "Unknown" where one is missing or there is no track |
| Search.SearchService.SearchLocal | go-backend/internal/search/search.go:100-128 | one result for each track with a CTID that the scan hits for some token, with its CTID, title, artist and recognised flag and no providers |
| Search.SearchService.CollectLocal | go-backend/internal/search/search.go:141-150 | collects exactly the CTIDs that the own index lists under the tokens |
| Search.SearchService.AskPeers | go-backend/internal/search/search.go:168-199 | collects exactly the CTIDs that the peers' replies to one token name |
| Search.SearchService.CollectRemote | go-backend/internal/search/search.go:152-200 | collects exactly the CTIDs of the usable hints of the asked peers; failures are skipped |
| Search.SearchService.Describe | go-backend/internal/search/search.go:217-240 | metadata of a stored track with the CTID, else of a hint for it, else "Unknown" |
| Search.SearchService.ResolveAll | go-backend/internal/search/search.go:202-254 | each collected CTID with working lookup at most once, all of them below the limit |
| Search.SearchService.SearchNetwork | go-backend/internal/search/search.go:135-258 | distinct candidates with working lookup; all of them when fewer than the limit; at most the limit; providers and metadata as specified |
| Search.SearchService.Search | go-backend/internal/search/search.go:51-97 | the merge of such local and network results, whatever the map iteration order; a result for the CTID of an own matching track has that track's fields |
| Search.ResultFields | go-backend/internal/search/search.go:72-93 | field by field: own results as above even when the network found the CTID too; every other one with the first five peers for the CTID, and title and artist of a stored track, a hint or "Unknown" |
| Search.CandidateIff | go-backend/internal/search/search.go:141-200 | a CTID is collected exactly when the own index lists it under a token or one of the first ten peers for a token names it |
| Search.SearchService.FinishSearch | go-backend/internal/search/search.go:62-97 | the same when local results, index and the rest are read at three moments |
| Search.SearchService.AskNetwork | go-backend/internal/search/search.go:152-258 | network search from the CTIDs that the index listed at any moment before |
| Merge.MergeResults | go-backend/internal/search/search.go:72-93 | the two loops keep each local CTID once, then new network CTIDs as far as there is room |
| Merge.MergedResultIs | go-backend/internal/search/search.go:72-93 | each merged result is the first local one with its CTID, else the first from the network |
| Merge.MergedIsBounded | go-backend/internal/search/search.go:72-93 | no CTID twice, local ones first and all of them, nothing invented, at most max(limit, distinct local + 1) results |
| Merge.MergeKeepsLimitIff | go-backend/internal/search/search.go:72-93 | the limit is kept exactly when the distinct local CTIDs are below it, or at it with no new network CTID |
| Merge.LocalResultsAreNotCut | go-backend/internal/search/search.go:76-82 | distinct local results come back unchanged, whatever the limit |
| Limits.SearchKeepsLimitIff | go-backend/internal/search/search.go:51-97 | every possible result of a search keeps the limit exactly when the own matching CTIDs are below it, or at it with no new candidate that has a working lookup |
| Limits.SearchSize | go-backend/internal/search/search.go:51-97 | every search returns at least as many results as there are own matching CTIDs, and keeps the limit under that condition |
| Limits.SearchOverLimit | go-backend/internal/search/search.go:51-97 | when the condition fails, a possible result over the limit |
| Limits.SearchExceedsLimit | go-backend/internal/search/search.go:72-82 | for any number of distinct CTIDs, a store with which every search for a title returns them all, whatever the limit |
| Merge.MergedIsUnionIff | go-backend/internal/search/search.go:72-93 | every CTID is kept exactly when the new network ones fit into the room, which is at least one |
| Merge.MergedIsUnionWhenAllFit | go-backend/internal/search/search.go:72-93 | when all distinct CTIDs fit into the limit, the result set is their union |
| Discovery.DiscoveryIsComplete | go-backend/internal/search/search.go:135-258 | a search with a token that a peer announced for a track, and owes no index update for when it reads its index, returns the CTID, for every map order, if the lookup yields all (at most ten) providers, the peer replies and all CTIDs fit |
| Discovery.DiscoverySurvivesRestart | go-backend/internal/search/index_protocol.go:83-107 | at any moments of the peer's run, restarts included: its reply lists the CTID exactly when its index does, or has no entry and the scan spells it, and then the search returns it |
| Discovery.AnnouncedIsCandidate | go-backend/internal/search/search.go:152-200 | a peer's announced track is a candidate of every search for the token that its reply covers |
| Discovery.SearchReturnsIff | go-backend/internal/search/search.go:51-258 | when everything fits, a search returns exactly the candidates with a valid digest and the CTIDs of the own matching tracks |
| Discovery.SearchIsSound | go-backend/internal/search/search.go:51-97 | each result is an own track or the CTID of a recognised track of the searcher or an asked peer; none twice |
| Network.NodeRuns | go-backend/internal/daemon/daemon.go:170-343 | in every run of a network, each node's part is a run of that node, so all node invariants hold of it |
| Network.EverySearchFindsAnnouncedTracks | go-backend/internal/search/search.go:51-258 | in every run of every network, what a node has announced and owes no index update for is found by every search of every node, if lookup yields the (at most ten) providers, the node replies and all CTIDs fit |
| Network.EverySearchIsSound | go-backend/internal/search/search.go:51-258 | no search returns anything but own tracks and CTIDs of recognised tracks of some node, and none twice |
| Frames.ValueRoundTrip | go-backend/internal/streaming/streaming.go:209-226 | the little-endian value of the bytes of v is v, for any width |
| Frames.OrBytes | go-backend/internal/streaming/streaming.go:214-214 | or-ing the shifted bytes adds them, for one to four bytes |
| Frames.CombineBytes | go-backend/internal/streaming/streaming.go:209-216 | the or of the shifted header bytes, which ReadMessage uses, is their little-endian value |
| Frames.InStream.Fill | go-backend/internal/streaming/streaming.go:194-197 | fills the buffer or fails: cleanly only when the stream has ended by EOF before the first byte, with the stream's error when it was reset |
| Frames.InStream.ReadMessage | go-backend/internal/streaming/streaming.go:186-216 | reads what the parse function says, with its kinds of failure, resets included |
| Frames.OutStream.WriteMessage | go-backend/internal/streaming/streaming.go:201-226 | appends the frame, or a part of it when the stream breaks |
| Frames.FrameIs | go-backend/internal/streaming/streaming.go:201-226 | a frame is four length bytes, the low one first, and the data |
| Frames.MessageReadBackIff | go-backend/internal/streaming/streaming.go:186-226 | a message is read back exactly when it has at most 10 MB, lengths modulo 2^32 included |
| Frames.CutDecodes | go-backend/internal/streaming/streaming.go:186-226 | any cut of a frame stream decodes to its whole frames, with a clean end exactly at a frame boundary or right after a header |
| Frames.CutDecodesTooLarge | go-backend/internal/streaming/streaming.go:186-226 | the same for a stream whose last message exceeds 10 MB: that one is not read, and its header makes the end unclean |
| Frames.WholeFramesIsLargest | go-backend/internal/streaming/streaming.go:186-226 | the whole frames are the longest prefix that fits |
| Frames.EncodeInjective | go-backend/internal/streaming/streaming.go:201-207 | frame streams are uniquely decodable |
| Frames.WholeStreamDecodes | go-backend/internal/streaming/streaming.go:186-226 | an uncut stream decodes to all its messages and ends cleanly |
| Transfer.HandleStream | go-backend/internal/streaming/streaming.go:59-120 | for a readable request, sends what the node serves for the CTID, or a prefix of that when the stream breaks; else nothing |
| Transfer.FindSource | go-backend/internal/streaming/streaming.go:68-89 | how opening the file of a stored track with the CTID goes this time; "track not found" exactly when there is no such track |
| Transfer.SendSource | go-backend/internal/streaming/streaming.go:70-119 | sends the error frame, or the numbered chunks of the file as read and then the error frame if reading fails; a prefix of that when the stream breaks |
| Transfer.SendFile | go-backend/internal/streaming/streaming.go:94-119 | the loop over the file sends exactly the data chunks, in order, until the stream breaks |
| Transfer.DataChunkAt | go-backend/internal/streaming/streaming.go:98-118 | chunk i has number i and carries the bytes of read i |
| Transfer.SentChunksAre | go-backend/internal/streaming/streaming.go:91-119 | chunks numbered from 0, each with the bytes of its read and the size in 64 KB units, and last an error chunk numbered -1 if reading failed |
| Transfer.ErrorReplyIs | go-backend/internal/streaming/streaming.go:68-89 | a file that cannot be served is answered with the error chunk alone |
| Transfer.ReceiveChunks | go-backend/internal/streaming/streaming.go:155-181 | writes what the specification says is received and reports success exactly then, unless the disk fails |
| Transfer.ReceiveChunk | go-backend/internal/streaming/streaming.go:156-178 | one round of the loop: what is written and whether it goes on |
| Transfer.ReceivedFrame | go-backend/internal/streaming/streaming.go:156-179 | a frame that is no chunk fails, an error chunk fails, the last chunk by its number ends with success, any other goes on |
| Transfer.ReceivedEnd | go-backend/internal/streaming/streaming.go:158-163 | the end of the stream is a success exactly for EOF with no byte left |
| Transfer.ChunkFits | go-backend/internal/streaming/streaming.go:52-56 | a 64 KB chunk in JSON with base64 stays below 88 KB, far under the frame limit |
| Transfer.TransferOutcome | go-backend/internal/streaming/streaming.go:91-181 | for any reads, any cut, and an end by EOF or by an error, exactly what is written and when success is reported |
| Transfer.OutputIsPrefix | go-backend/internal/streaming/streaming.go:91-181 | for any reads and any cut, the output is a prefix of the file |
| Transfer.TransferCompleteIff | go-backend/internal/streaming/streaming.go:91-181 | the whole file arrives exactly when it was read to its end, all data frames arrive and the reads took no more chunks than announced |
| Transfer.WholeStreamOutcome | go-backend/internal/streaming/streaming.go:91-181 | exactly what an uncut stream delivers and when it is a success, with and without an error frame and for both kinds of end |
| Transfer.SuccessMeansWholeFileIff | go-backend/internal/streaming/streaming.go:91-181 | for every opened file, any reads, read failures and cuts: reported success means the whole file exactly unless the announced number of chunks came without all of it, or the stream ended early at a place that looks clean |
| Transfer.MissingPart | go-backend/internal/streaming/streaming.go:91-118 | in that condition, bytes are missing behind j reads exactly when there are more reads or the file was not read to its end |
| Transfer.ErrorFrameFailsIff | go-backend/internal/streaming/streaming.go:103-106 | a reply that ends with an error frame and arrives whole fails exactly when there is no file, the file is empty, or fewer chunks came before than announced |
| Transfer.ErrorFrameMayBeIgnored | go-backend/internal/streaming/streaming.go:176-178 | a short read and then a read failure in the one announced chunk: half of the file is received with success |
| Transfer.EarlyEndIsSuccess | go-backend/internal/streaming/streaming.go:158-161 | a stream that ends behind any proper part of the announced chunks is a success with that part of the file |
| Transfer.ShortReadsLoseTail | go-backend/internal/streaming/streaming.go:91-118 | two short reads of a two-byte file: the whole stream arrives, and one byte is received with success |
| Transfer.WholeStreamSucceeds | go-backend/internal/streaming/streaming.go:91-181 | a file read to its end and not cut is received as a success, except an empty one whose stream ends by an error |
| Transfer.TransferRoundTrip | go-backend/internal/streaming/streaming.go:91-181 | with full reads every file, the empty one too, arrives unchanged in ceil(size / 65536) chunks |
| Transfer.ErrorReply | go-backend/internal/streaming/streaming.go:165-168 | an error frame instead of the file, of any size, puts no byte into the file and fails the attempt; exactly which cuts look like an empty file |
| Transfer.StreamFromPeer | go-backend/internal/streaming/streaming.go:123-182 | unless the disk fails, it succeeds exactly when the stream delivers, and the file holds what was received |
| Transfer.FetchTrack | go-backend/internal/daemon/daemon.go:279-301 | unless the disk fails, it succeeds exactly when one of the first twelve providers of a valid CTID delivers, and the file is exactly what the first such stream delivers; no providers or an invalid CTID fail and leave the file alone |
| Transfer.FetchedIsPrefixOfOneFile | go-backend/internal/daemon/daemon.go:279-301 | with senders of this kind, a fetched file is a part of a file that one asked provider stores for the CTID, never a mixture |
| Providers.AnnouncedIsProvided | go-backend/internal/ctr/ctr.go:120-134 | in every run, the CTID behind an announced token has a provider record, unless its announcement was refused while processing |
| Providers.EventKeepsCovered | go-backend/internal/daemon/daemon.go:170-343 | every event keeps that for announced tokens and for all plans in progress |
| Providers.ProcessProvidesIff | go-backend/internal/ctr/ctr.go:107-136 | processing a recognised track leaves a provider record for its CTID exactly when the network takes that one announcement |
| Providers.FindableWithoutProvider | go-backend/internal/ctr/ctr.go:120-134 | an execution that announces and indexes every token of a track without any provider for its CTID |
| Fetching.FetchedFileHasTheCtid | go-backend/internal/daemon/daemon.go:279-301 | in every run of every network and for any cuts, a file fetched for a CTID is a part of a file whose decode-and-hash is that CTID |
| Fetching.FetchedFileIsWhole | go-backend/internal/daemon/daemon.go:279-301 | with unbroken streams and full reads it is the whole of such a file |
| Fetching.AnnouncerIsProvider | go-backend/internal/dht/dht.go:228-278 | a node that announced a token for a CTID is among the providers of the CTID from then on, unless that was refused and not taken since |
| Fetching.AnnouncedIsFetchable | go-backend/internal/daemon/daemon.go:279-301 | a fetch of such a CTID succeeds at any later moment when lookup yields the (at most twelve) providers and the node is reached and has the file |
| Fetching.SearchThenFetch | go-backend/internal/daemon/daemon.go:262-301 | from end to end: an announced track is found by every search for its token, can be fetched, and what is fetched is the whole of a file with the CTID found |
| Pcm.NormalizePcm | go-backend/internal/ctr/ctr.go:179-192 | the loop fills the little-endian bytes of the samples |
| Pcm.DecodeSamples | go-backend/internal/audio/decoder.go:87-93 | the loop decodes byte pairs and drops an odd last byte |
| Pcm.BytesAreTwosComplement | go-backend/internal/ctr/ctr.go:179-192 | two bytes for each sample, the low one first, in two's complement |
| Pcm.SamplesAreTwosComplement | go-backend/internal/audio/decoder.go:87-93 | the sample of each byte pair, the same way |
| Pcm.SamplesOfBytes | go-backend/internal/ctr/ctr.go:179-192 | decoding the canonical bytes gives the samples back |
| Pcm.BytesOfSamples | go-backend/internal/audio/decoder.go:87-93 | encoding a decoded buffer gives its bytes up to the last even length |
| Pcm.EqualCtidIffEqualPcm | go-backend/internal/ctr/ctr.go:163-177 | equal hashes mean equal PCM, as far as the hash does not collide |
| Resample.AccumulatorFits | go-backend/internal/audio/decoder.go:191-194 | the int32 sum does not overflow for up to 65535 channels |
| Resample.MonoSampleBetween | go-backend/internal/audio/decoder.go:188-196 | a mono sample lies within any bounds of its frame, truncation included |
| Resample.Downmix | go-backend/internal/audio/decoder.go:188-199 | one sample per whole frame: the mean of the frame cut off toward zero; all reads inside |
| Resample.FrameSumIsAdditive | go-backend/internal/audio/decoder.go:191-194 | the frame sum is zero for silence and moves with each sample of the frame and no other |
| Resample.SumFrame | go-backend/internal/audio/decoder.go:191-194 | the int32 loop computes the exact sum of the frame |
| Resample.PositionInside | go-backend/internal/audio/decoder.go:204-210 | every source index is valid for all positive rates |
| Resample.Interpolate | go-backend/internal/audio/decoder.go:202-219 | floor(n * dst / src) samples, each the value on the straight line between its two neighbours, cut off toward zero |
| Resample.LineIsReproduced | go-backend/internal/audio/decoder.go:207-217 | an input on a straight line is reproduced up to truncation |
| Resample.HalfWay | go-backend/internal/audio/decoder.go:207-217 | from 22.05 to 44.1 kHz, 0 and 100 give 0, 50, 100, 100 |
| Resample.SampleBetweenNeighbours | go-backend/internal/audio/decoder.go:207-217 | every output sample lies between its two neighbours, which exist |
| Resample.InterpolationKeepsOrder | go-backend/internal/audio/decoder.go:207-217 | a nondecreasing input gives a nondecreasing output |
| Resample.ExactPositionsAreCopied | go-backend/internal/audio/decoder.go:207-217 | an output sample that falls on a source sample copies it |
| Resample.ResampleToTarget | go-backend/internal/audio/decoder.go:183-222 | the samples are those of the downmix and then of the interpolation to 44.1 kHz; the length; the output never leaves the range of the input |
| CtrQueue.EventKeepsOk | go-backend/internal/ctr/ctr.go:47-160 | every step of callers, workers, Start and Stop keeps the invariant |
| CtrQueue.EveryOfferIsInOnePlace | go-backend/internal/ctr/ctr.go:90-160 | in every run every offered track is refused, on the way, dropped, queued, in work or finished, in exactly one of these |
| CtrQueue.AcceptedAreTakenOnceInOrder | go-backend/internal/ctr/ctr.go:145-160 | accepted tracks are taken in order, none twice |
| CtrQueue.Bounded | go-backend/internal/ctr/ctr.go:39-59 | at most 100 queued, two workers for each effective Start and at most as many tracks in work |
| CtrQueue.OfferedTrackGoes | go-backend/internal/ctr/ctr.go:90-104 | in every run, an offered track is refused by a stopped service, queued last below 100, and dropped otherwise |
| CtrQueue.CtrService.Start | go-backend/internal/ctr/ctr.go:47-60 | starts two workers unless it runs already |
| CtrQueue.CtrService.Stop | go-backend/internal/ctr/ctr.go:63-87 | stops accepting and cancels for good, unless it is stopped already |
| CtrQueue.DeadStaysDead | go-backend/internal/ctr/ctr.go:145-152 | without workers nothing is taken until the next Stop |
| CtrQueue.MayDieIffStopped | go-backend/internal/ctr/ctr.go:47-87 | at any moment of any run, the service can lose all workers without another Stop exactly when a Stop has taken effect before |
| CtrQueue.RestartMayLeaveServiceDead | go-backend/internal/ctr/ctr.go:63-72 | a run in which an accepted track is left in a service without workers |
| CtrQueue.CtrService.QueueTrack | go-backend/internal/ctr/ctr.go:90-104 | refused when stopped, dropped when full, queued last otherwise |
| CtrQueue.CtrService.WorkerRound | go-backend/internal/ctr/ctr.go:145-160 | takes the head of the queue or exits when cancelled; waits only when neither is ready |
| Player.IndexIsAlwaysValid | flutter-app/lib/services/audio_player_service.dart:41-263 | in every run the index is -1 for an empty queue and a queue position otherwise |
| Player.AudioPlayerService.SetQueueFromTracks | flutter-app/lib/services/audio_player_service.dart:41-56 | keeps the tracks with a path; the index is -1, the first track with the given id or 0, or stays if it can |
| Player.PlayableConcat | flutter-app/lib/services/audio_player_service.dart:42-45 | the tracks with a path are kept in order |
| Player.PlayableOne | flutter-app/lib/services/audio_player_service.dart:43-43 | a path of white space alone counts as none |
| Player.AudioPlayerService.Next | flutter-app/lib/services/audio_player_service.dart:229-263 | moves, wraps, shuffles or stops as the value function says |
| Player.AudioPlayerService.Previous | flutter-app/lib/services/audio_player_service.dart:208-227 | the same backwards |
| Player.NextPlays | flutter-app/lib/services/audio_player_service.dart:229-263 | which track next plays for every queue: the drawn one, the following one, the first one with repeat-all; else it stops after the end of a track and does nothing when pressed |
| Player.PreviousPlays | flutter-app/lib/services/audio_player_service.dart:208-227 | which track previous plays, the same way |
| Player.AudioPlayerService.PlayUri | flutter-app/lib/services/audio_player_service.dart:58-100 | moves the index to the first item with the id, except when that track is loaded already or the path is blank |
| Player.AudioPlayerService.OnCompleted | flutter-app/lib/services/audio_player_service.dart:30-39 | repeat-one stays, everything else is an automatic next |
| Player.AudioPlayerService.CycleRepeatMode | flutter-app/lib/services/audio_player_service.dart:194-206 | off, all, one, off, and nothing else changes |
| Player.IndexShowsCurrent | flutter-app/lib/services/audio_player_service.dart:82-85 | whichever item is played, the index points to an item with the current track's id |
| Player.NextsGoRound | flutter-app/lib/services/audio_player_service.dart:229-263 | k presses of next move k positions round the queue and play the track there |
| Player.PlayStaysIff | flutter-app/lib/services/audio_player_service.dart:68-85 | playing an item leaves the index on it exactly when it is the first with its id or already loaded |
| Player.NextFollowsIffUnique | flutter-app/lib/services/audio_player_service.dart:246-258 | with repeat-all and nothing loaded, next leads to the following item from every position exactly when ids are unique |
| Player.NextFollowsLoadedIff | flutter-app/lib/services/audio_player_service.dart:68-85 | while a source is loaded, next leads to the following item exactly when that is the first with its id or has the current id |
| Player.NextFollowsIffGrouped | flutter-app/lib/services/audio_player_service.dart:246-258 | while sources are loaded, it does so from every position exactly when equal ids stand next to each other |
| Player.LoadedNextsGoRound | flutter-app/lib/services/audio_player_service.dart:229-263 | then k presses of next move k positions round the queue |
| Player.NextsVisitAll | flutter-app/lib/services/audio_player_service.dart:229-263 | n presses of next reach every item and return to the start |
| Player.NextsVisitOnce | flutter-app/lib/services/audio_player_service.dart:229-263 | and visit none twice |
| Player.PreviousUndoesNextIff | flutter-app/lib/services/audio_player_service.dart:208-263 | previous undoes next exactly unless next stood still at the end |
| Player.NextUndoesPreviousIff | flutter-app/lib/services/audio_player_service.dart:208-263 | next undoes previous exactly unless previous stood still at the start |
| Player.AutoAdvanceStops | flutter-app/lib/services/audio_player_service.dart:30-39 | with repeat off, playback runs through the rest of the queue one track at a time and stops |
| Player.ShuffleMovesElsewhere | flutter-app/lib/services/audio_player_service.dart:213-244 | a shuffle step lands on a different valid item |

## Left out

- Text is a sequence of code points, so the byte loops of the store work on code points here; for valid UTF-8 the results agree. Invalid UTF-8 is not modelled.
- Unicode lower-casing is any function that agrees with ASCII lower-casing on ASCII, is idempotent and neither makes nor removes separators; its table is not part of this model.
- Decode-and-hash is a fixed function of the file path. Files that change, and two concurrent ffmpeg runs sharing one temporary file, are not modelled; neither are MP3, WAV and ffmpeg decoding or SHA-256.
- Track ids are taken to be new: the clock behind them is a parameter.
- libp2p, Kademlia, NAT, relay and peer identity: the DHT is the stream of peers that a lookup yields, and an answer for each record offered to it.
- In a search, each peer gives one reply per token; a peer asked twice about a token replies the same. The scans for several tokens, the index reads and the metadata lookups of one search or reply are each taken at one moment.
- Retries, timeouts, tickers, logging and metrics; gRPC, HTTP and the user interface.
- Reading the datastore does not fail, and nothing deletes tracks (no caller does); Badger and Hive are a map.
- encoding/json is any encoder and decoder that invert each other on chunks and produce text of the stated size; other encodings of a chunk, such as reordered fields, are up to that decoder. The JSON of stream requests and index queries is not modelled; a stream request is a CTID or unreadable.
- Files keep their content per path; how they can be opened and read may differ with each attempt.
- A provider record never expires, and a refused announcement leaves none.
- Error texts of a sender are at most 40 MB, which the 10 MB bound on requests gives.
- Resample.PositionInside: positions are exact rationals, so float64 rounding of the ratio is left out. A declared rate of zero, on which the source divides by zero, is excluded.
- Resample.Interpolate: exact rational positions and weights; float64 rounding of ratio, position and value is left out.
- Resample.SampleBetweenNeighbours: holds of exact rational weights, float64 rounding is left out.
- Resample.InterpolationKeepsOrder: holds of exact rational weights, float64 rounding is left out.
- Resample.ExactPositionsAreCopied: holds of exact positions, which float64 may miss.
- Resample.ResampleToTarget: length and range are those of exact rational arithmetic.
- WAV clamping and upmixing: the first is one comparison, the second does not exist in the source.
- CtrQueue.CtrService.QueueTrack: the object's methods run without interruption; interleaving is modelled by the events. The queue carries numbers instead of tracks; the daemon's runs let a worker process any stored track at any time.
- Player: shuffling draws any other position at once, since the redraw loop ends only with probability one. Title, artist, seeking and loading the audio source are not modelled; whether a source is loaded is an input.
- Daemon.Daemon.AddTrack: queueing the new track for processing is a separate event of the runs.
