# Gnoscope, verified

A Dafny model of the parts of Gnoscope that carry state, concurrency or arithmetic, and proofs of what they promise.
`dafny verify dfyconfig.toml` checks all of it.

| files | what they model |
|---|---|
| Amino, Decode, Walker, WalkRefinement, WalkReach, WalkCut | the bounded walker that turns an Amino payload into a node tree: the walk as a function of its state, the mutating walker proved equal to it, what a walk depends on, which objects it reaches, and what cuts it short |
| Rendering | what a row says of a payload, as a relation between the two, and that the walk's rows say it |
| PrefetchCache, Prefetch | decoding in rounds against a growing cache, and its agreement with the one-object-at-a-time resolver |
| Avl | recognising AVL trees in the decoded forest and rewriting them as rows |
| PullStore, PullWalk | the resumable walk over a repository's pull requests, as a step system with edits by others, crashes and rate limits between any two steps |
| ResponseCache, SingleFlight, CacheKey, Compress | the response cache under its lock, its request threads as a step system, the cache key, and the compressing writer inside the caching writer |
| Regroup, Checksum, Address, Bip173 | Bech32 addresses: regrouping, the checksum register, the text, and an address published in BIP-173 |
| Glossary | the closure and cycle checks of the glossary |
| Generations, Cards, Collapse, FoldCovered, Inherit | which realms are one app at different dates: deriving the edges, folding cards, inheriting fields |
| Sorting, Paging, Ranking, Spike | the stable sort, cross-network paging, the ranked feed, spike detection |
| Base, Strings | options, results, string order, distinct lists; lowering, trimming and cutting strings |

Code that changes things in place is modelled by methods on classes or arrays, each proved against a function or a
relation of the old state; the main results are lemmas about those. In the directory passes a card's pointer is its
index in the array.

## What the proofs found

- `StorePage` is documented as one transaction and uses two. A crash between them leaves a pull request's new row with the
  events it had before, which are the right ones exactly when nothing of them had changed
  (`PullWalk.PageIsWholeExactlyWhen`, with a run in `PullWalk.RowsCanLackTheirEvents`); without such a crash rows and events
  stay together (`PullWalk.RowsKeepTheirEvents`). The walk as a whole is complete all the same, because the cursor has not
  moved (`PullWalk.WatermarkVouches`).
- The caching writer remembers the last status while the connection sends the first: a handler that reports an error and
  then a success has the error's body cached as a success (`Compress.SecondStatusWins`, and exactly when in
  `Compress.DirectStoreIsHonestExactlyWhen`).
- Headers are stored as they are when the handler ends and sent as they are when the head goes out: a header set in between
  is stored though it was not sent (`Compress.LateHeaderIsStored`, `Compress.LateHeaderIsStoredDirect`, and exactly when in
  `Compress.ReplayIsTheDelivery` and `Compress.DirectReplayIsTheDelivery`).
- A list that mixes curated and derived paths is labelled "derived": no list starts out with a label, so the label for
  both is never reached (`Cards.LabelsNeverSayBoth`, with such a list in `Cards.MixedListIsCalledDerived`, and exactly when
  the label is right in `Cards.LabelIsHonestExactlyWhenPure`).
- A replaced card disappears from the page exactly when its replacements are circular (`Collapse.LostExactlyWhenCircular`).
  Deriving edges can make them so: a first generation whose curated list names the second takes both off the page
  (`Collapse.BothGenerationsAreLost`, and exactly when, in terms of the lists before deriving, in
  `Collapse.LostExactlyWhenPlanIsCircular`).
- A card that becomes a part of another takes its own previous generations off the page (`FoldCovered.FoldShowsExactly`).

## Conventions

- A string stands for Go's byte string, one char per byte. Times are integers, or strings where the code compares strings.
  Floats are reals.
- The fetcher is a fixed partial function from ids to payloads, asked in batches that may fail. Payloads are already parsed;
  rendering of numbers and base64 text is given. In the cached resolver a miss is recorded beside the walker, in the order
  the walk meets it.
- GitHub's listing is what follows a cursor in the order of update time and number; an edit stamps GitHub's clock; pull
  requests are not deleted. `walkRepo` and `WalkPulls` are one step system rather than loops.
- A cache lookup reads the clock once. The ttl of a response is a parameter of the request. The compressor's bytes reach the
  connection when it is closed or flushed. The connection sends one head, with an explicit status or 200 on the first write or
  flush, and no body under 204 and 304. Of the headers only content type and encoding are modelled; Cache-Control and ETag are
  stored in the same way. Compressing and decompressing are a pair that undo each other.
- `sort.SliceStable`, `sort.Float64s` and `sort.Strings` are `Sorting.StableSort` and `Sorting.SortStrings`, with what
  the Go library promises of them proved.
- The power of a half in the recency factor is any function that is positive and at most one from zero on.
- The bits that pick the checksum's generators are read by masks (`top & 4`) where the code shifts (`(top >> 2) & 1`).


## Model

| member | source | states |
|---|---|---|
| Prefetch.DecodePackageWith | pkg/gnostate/prefetch.go:51-106 | main result of the decoder: whatever stops the rounds, no id is asked of the chain twice, no object that the block does not lead to, and the budget is spent one unit per object held; a tree that is not marked truncated equals the direct resolver's decode, no object reachable from the block is missing from it, and its rows show what the block holds; one that is marked was cut for a cause: a limit used up, a block nested too deep, an object left behind, or 64 rounds |
| Prefetch.NoMissIsDirect | pkg/gnostate/prefetch.go:77-92 | a round that missed nothing gives exactly the tree, counts and flags of one run against a resolver that asks the chain for every id |
| Prefetch.UncutIsUnlimited | pkg/gnostate/decode.go:222-230 | a decode no limit cut is the decode under every looser limit |
| Prefetch.RoundDeepens | pkg/gnostate/prefetch.go:77-106 | an uncut walk wants every object one reference further out that is not held |
| Prefetch.FilledRoundDeepens | pkg/gnostate/prefetch.go:77-106 | after k uncut rounds whose misses were all fetched, every object within k references of the block is held |
| Prefetch.NothingMissedHoldsAll | pkg/gnostate/prefetch.go:93-96 | an uncut walk that missed nothing holds every object reachable from the block |
| Prefetch.UncutHoldsAll | pkg/gnostate/prefetch.go:93-96 | the same for the tree that is returned: not truncated and nothing missed means everything reachable is held |
| Prefetch.WantsOnlyReachable | pkg/gnostate/prefetch.go:77-106 | a walk's misses are all objects the block leads to |
| Prefetch.AcyclicChainShowsNoCycle | pkg/gnostate/decode.go:392-420 | a decode shows no cycle row when no stored object leads back to itself |
| Prefetch.DecodePackage | pkg/gnostate/decode.go:128-180 | one walker over the block, then the tree pass: the tree and counts are those of the walk function, and where nothing was cut or missed the rows show what the block holds |
| Prefetch.UncutShows | pkg/gnostate/decode.go:128-180 | an uncut decode that asks the chain for each id shows the block: before trees are flattened, row by row, what Rendering.Shows says |
| Prefetch.CleanShows | pkg/gnostate/decode.go:128-180 | the same against any resolver when nothing was missed |
| Prefetch.TruncatedIsSpent | pkg/gnostate/decode.go:222-230 | a direct decode that is truncated has as many nodes as were asked for (4000 by default), more requests than can be counted, or met something nested deeper than was asked for (12 by default) |
| Prefetch.Round | pkg/gnostate/prefetch.go:77-92 | one round: the walk against what is held, with both want-lists started afresh and filled with exactly the ids that were missed |
| Prefetch.OneRound | pkg/gnostate/prefetch.go:77-106 | one turn of the loop: a turn that goes on has read more or has set `exhausted`, and the budget accounting stands |
| Prefetch.Rounds | pkg/gnostate/prefetch.go:77-106 | the loop over rounds ends with one of its three exits and the accounting of budget and ids |
| PrefetchCache.Cache.constructor | pkg/gnostate/prefetch.go:53-58 | nothing held, the whole budget left |
| PrefetchCache.Cache.FetchObjects | pkg/gnostate/prefetch.go:153-161 | a request's answers are written back for every id of it, ids the chain did not have included |
| PrefetchCache.Cache.FillObjects | pkg/gnostate/prefetch.go:144-162 | the object half of a round: misses deduplicated, cut to the budget, `exhausted` set exactly when a wanted object is left behind |
| PrefetchCache.Cache.FillTypes | pkg/gnostate/prefetch.go:163-178 | the type half, which no budget limits |
| PrefetchCache.Cache.Fill | pkg/gnostate/prefetch.go:144-179 | budget plus objects held stays the caller's total, nothing held is dropped or changed, no id is sent twice, and a round that wanted something new holds more or has run out |
| PrefetchCache.Dedupe | pkg/gnostate/prefetch.go:184-196 | sorts and overwrites the front of the same buffer: strictly ascending, and exactly the ids that were there |
| PrefetchCache.Deduped | pkg/gnostate/prefetch.go:184-196 | the same for a want-list: distinct, ascending, the same ids |
| WalkRefinement.SameBlock | pkg/gnostate/decode.go:128-180 | a whole block walked without a miss and without a cut gives the same rows, counts and flags in every better-informed and less-limited environment |
| WalkRefinement.SameRef | pkg/gnostate/decode.go:392-434 | the same for one reference: its answer, its place on the open path and its cost |
| WalkReach.BlockCovers | pkg/gnostate/decode.go:128-180 | an uncut decode asks for everything the block refers to and for everything each object it read refers to |
| WalkReach.BlockAsks | pkg/gnostate/decode.go:128-180 | the converse of coverage: a decode asks for nothing outside any set that holds what the block refers to and what its members refer to |
| WalkReach.RefAsks | pkg/gnostate/decode.go:392-434 | the same at one reference |
| WalkReach.RefCovers | pkg/gnostate/decode.go:392-434 | the same at one reference, whose object stays open while it is read |
| WalkReach.BlockCycle | pkg/gnostate/decode.go:392-434 | in a decode of any block every cycle row, at any depth, names an object that leads back to itself through stored references; under a heap item, whose own id may replace the one the row was cut off at, some object does |
| WalkReach.CycleRowsNeedACycle | pkg/gnostate/decode.go:392-434 | so a cycle row anywhere means a cycle on the chain |
| WalkCut.CutForCause | pkg/gnostate/decode.go:222-230 | a walk under any limits that ends truncated has used up its nodes or its requests, or the block, followed through references, nests deeper than its limit |
| WalkCut.BlockCut | pkg/gnostate/decode.go:128-180 | the same from any variable and state on |
| WalkCut.RefCut | pkg/gnostate/decode.go:392-434 | and at one reference |
| Rendering.BlockShows | pkg/gnostate/decode.go:140-178 | a block walked without a cut or a miss gives one row per named variable, in order and without the functions, each named by its variable and showing its value; a relation over payloads and rows that uses none of the walk's functions |
| Rendering.ValueShows | pkg/gnostate/decode.go:232-259 | a value's row: its number, the zero of its primitive type, nil, or what its payload shows, under its type's name and id |
| Rendering.RawShows | pkg/gnostate/decode.go:264-349 | a payload's row by its tag: texts are the payload's, abbreviated beyond the limit only, functions carry their name and place, stored objects their identity |
| Rendering.StructShows | pkg/gnostate/decode.go:436-457 | child i of a struct's row shows field i, under the i-th name that its type or its resolved declaration declares when there are as many names as fields, and [i] otherwise |
| Rendering.PointerShows | pkg/gnostate/decode.go:351-390 | a pointer's row is that of what it holds, or the child of its base's row at its index |
| Rendering.RefShows | pkg/gnostate/decode.go:392-434 | a reference's row is that of the stored object, a package, a cycle, or an unresolved reference, each exactly when that is so |
| Rendering.SliceShows | pkg/gnostate/decode.go:459-493 | child k of a slice's row is the base's child at the offset plus k, renamed [k], as far as length and base go |
| Rendering.ArrayShows | pkg/gnostate/decode.go:495-525 | an array's row: element by element, or as text where its bytes are short and printable, or as a count of bytes |
| Rendering.MapShows | pkg/gnostate/decode.go:527-551 | child i of a map's row shows value i under its key's text, or [i] where that is empty |
| Rendering.OneRow | pkg/gnostate/decode.go:264-349 | a payload shows as one row only, so the relation above determines every row |
| Rendering.OneRowPerValue | pkg/gnostate/decode.go:232-259 | and so does a value |
| Rendering.TypeOfFinds | pkg/gnostate/decode.go:580-686 | the display name, the id to ask for and the field names found for a type are those its payload spells |
| Amino.ShortTypeIdIsTail | pkg/gnostate/decode.go:804-812 | a displayed type is what stands behind the last dot of its id |
| Decode.WalkRef | pkg/gnostate/decode.go:392-434 | every walk restores the open path, keeps counters within the limits and growing, and keeps the truncation flag raised; the walk ends because the resolver calls left or the payload shrink |
| Decode.WalkValue | pkg/gnostate/decode.go:232-259 | the same invariant for a value in its slot |
| Decode.WalkRaw | pkg/gnostate/decode.go:264-349 | the same for the dispatch on a payload's tag |
| Decode.FieldNames | pkg/gnostate/decode.go:688-730 | the names returned are none or as many as the fields wanted; a request is spent only on a declaration not on record and puts it there, and no walk takes one off, so each is asked for at most once per decode |
| Walker.Walker.constructor | pkg/gnostate/decode.go:211-220 | an empty walker |
| Walker.Walker.Budget | pkg/gnostate/decode.go:222-230 | counts the node or records the truncation |
| Walker.Walker.Value | pkg/gnostate/decode.go:232-259 | the mutating walker leaves the node and the state the walk function gives |
| Walker.Walker.RawValue | pkg/gnostate/decode.go:264-349 | the same for a payload |
| Walker.Walker.FollowPointer | pkg/gnostate/decode.go:351-390 | the same for a pointer: the inline pointee or the indexed child of its base |
| Walker.Walker.FollowRef | pkg/gnostate/decode.go:392-434 | the same for a reference: cycle row, budget, fetch, open path pushed and popped |
| Walker.Walker.Fetch | pkg/gnostate/decode.go:404-434 | the same for the part that asks the resolver |
| Walker.Walker.Opened | pkg/gnostate/decode.go:422-434 | the same for walking what was found, with the reference on the open path |
| Walker.Walker.StructValue | pkg/gnostate/decode.go:436-457 | the same for a struct; where nothing was cut or missed the row shows its fields under their declared names |
| Walker.Walker.SliceValue | pkg/gnostate/decode.go:459-493 | the same for a slice: the window of its backing array, renumbered |
| Walker.Walker.ArrayValue | pkg/gnostate/decode.go:495-525 | the same for an array, byte arrays rendered as text or hex |
| Walker.Walker.MapValue | pkg/gnostate/decode.go:527-551 | the same for a map |
| Walker.Walker.NamesOf | pkg/gnostate/decode.go:688-730 | the same for a struct's field names and the type cache |
| Walker.Walker.ClipText | pkg/gnostate/decode.go:763-772 | the same for clipping a text, with the flag it raises |
| Walker.Walker.Variables | pkg/gnostate/decode.go:140-178 | the same for the loop over a package block |
| Avl.CollectEntries | pkg/gnostate/avl.go:98-130 | appends a subtree's rows left to right and raises the flag exactly for a part that could not be read |
| Avl.FlattenTrees | pkg/gnostate/avl.go:27-35 | rewrites every recognised tree, children first |
| Avl.FlattenedRow | pkg/gnostate/avl.go:39-78 | a struct whose one field `node` is nil, not loaded, or has an AVL node's six fields becomes a map under the row's name, type and identity; any other row stays |
| Avl.EntriesAreStoredPairs | pkg/gnostate/avl.go:98-130 | the rows collected are the stored pairs in order, nil values kept, and the flag is raised exactly for a lost subtree; what a row stands for is read off its six named fields |
| Avl.TreeRendersInKeyOrder | pkg/gnostate/avl.go:39-78 | a search-ordered tree renders as rows with ascending names, says how many there are, and says it is partial exactly when a part is missing |
| Avl.EveryRowStandsForOneTree | pkg/gnostate/avl.go:81-130 | every row stands for exactly one stored tree, so the two results above cover every row |
| Avl.ShapeIsStable | pkg/gnostate/avl.go:39-93 | flattening children never changes whether the row above is a tree or an AVL node |
| Avl.FlattenIsIdempotent | pkg/gnostate/avl.go:27-35 | flattening twice is flattening once, on every forest |
| PullWalk.WatermarkVouches | pkg/ghlab/sync.go:215-252 | main result of the walk: in every run, with any edits, crashes, rate limits and page budgets, a recorded watermark vouches that every pull request not updated since it less the slack is stored in its current version with its full event set |
| PullWalk.UnfinishedIsStillListed | pkg/ghlab/sync.go:220-248 | after any crash, what is not whole behind a saved cursor is still to be listed after it |
| PullWalk.PageIsWholeExactlyWhen | pkg/ghlab/ghlab.go:372-401 | storing a page is two transactions: with both, each pull request of the page has the row and the full events of the one read; with a crash between them it has the row of this read, and its events exactly when the events stored before were already those |
| PullWalk.RowsKeepTheirEvents | pkg/ghlab/ghlab.go:372-401 | in every run without a crash between a page's two transactions, every stored row stands with the events of the read it came from, in every state outside that gap |
| PullWalk.RowsCanLackTheirEvents | pkg/ghlab/ghlab.go:372-401 | a run with such a crash that leaves a current row without its events (the comment promises one transaction) |
| PullWalk.StepKeepsPairs | pkg/ghlab/ghlab.go:372-401 | every other step keeps rows and events of one read together |
| PullWalk.StepKeepsInv | pkg/ghlab/sync.go:215-252 | every step of the system keeps the walk's invariant |
| PullWalk.RunKeepsInv | pkg/ghlab/sync.go:215-252 | every run does |
| PullWalk.EditKeepsCurrent | pkg/ghlab/sync.go:220-230 | an edit by somebody else breaks no promise about older pull requests |
| PullWalk.RowsKeepCurrent | pkg/ghlab/ghlab.go:298-324 | a row a promise covers is rewritten, if at all, as itself |
| PullWalk.StoredEventsAt | pkg/ghlab/ghlab.go:376-401 | storing a page replaces the events of its pull requests and keeps all others |
| PullWalk.MoreKeepsInv | pkg/ghlab/graphql.go:212-226 | reading further notes of a pull request keeps the invariant though it may change between two requests |
| PullWalk.DecideKeepsInv | pkg/ghlab/graphql.go:230-245 | the stop at the watermark is right: past the page that reaches back before it the old watermark vouches for the rest |
| PullWalk.PassIsRecordedWhenComplete | pkg/ghlab/sync.go:215-252 | a pass starts its walk by our clock when there is no cursor, goes on behind the page it saved until the last page or one that reaches an hour before the watermark, and records that start, with the cursor put back, exactly when it got there |
| PullWalk.WatermarkIsAStart | pkg/ghlab/sync.go:215-252 | in every run a watermark is the time at which some walk of the run began at the top |
| PullWalk.ReadMoreReadsOn | pkg/ghlab/graphql.go:212-226 | a follow-up request of an unchanged pull request reads the next hundred notes and says whether any are left |
| PullStore.ToRows | pkg/ghlab/graphql.go:275-306 | the row has the pull request's fields and its author's login; the events are exactly the notes told below |
| PullStore.EventsAreOthersNotes | pkg/ghlab/graphql.go:283-306 | an event is told exactly by a dated review or comment of the pull request whose author's login is not empty, not the pull request's author's, and neither on the bot list nor ending in [bot] or -bot once trimmed and lowered |
| PullStore.EventsInOrder | pkg/ghlab/graphql.go:283-306 | reviews first, then comments, each in the order of their notes |
| PullStore.IsBotIs | pkg/ghlab/seeds.go:147-156 | a login is a bot's exactly when, without the white space around it and in small letters, it is empty, listed, or ends like one |
| PullStore.NameOfIs | pkg/ghlab/graphql.go:283-295 | an app's login carries [bot] once, a deleted account's is empty, any other is as it is |
| PullStore.ReplacedAt | pkg/ghlab/ghlab.go:376-401 | what replacing a page's events leaves for each pull request |
| PullStore.Store.UpsertPRs | pkg/ghlab/ghlab.go:298-324 | the rows table after an upsert; creation times stay |
| PullStore.Store.ReplaceEvents | pkg/ghlab/ghlab.go:376-401 | the events table after the second transaction |
| SingleFlight.OneComputationPerKey | pkg/httpapi/cache.go:208-245 | in every reachable state of any number of threads a key is in flight exactly when one live thread owns its computation, and only one does |
| SingleFlight.WaitersHaveALeader | pkg/httpapi/cache.go:591-610 | nobody waits on a channel that is neither closed nor owned by a live computation of the same key |
| SingleFlight.ClaimsAreReleasedOnce | pkg/httpapi/cache.go:238-245 | every claim made is held now or was released, and a channel is closed once |
| SingleFlight.LookupsAreCounted | pkg/httpapi/cache.go:208-235 | hits, stale answers and misses add up to the lookups |
| SingleFlight.AnswersAreSoundAndFresh | pkg/httpapi/cache.go:556-641 | every answer served from the cache was a handler's successful output for the same key, at most ttl old, or ttl and grace when stale or waited for |
| SingleFlight.CacheIsBounded | pkg/httpapi/cache.go:260-280 | never more entries than the cap, none with an empty body |
| SingleFlight.ArrivalIsServed | pkg/httpapi/cache.go:556-610 | in every run a request for a key whose entry is at most ttl and grace old is answered with that entry at once: as a hit when at most ttl old, as stale otherwise, and then refreshed by nobody else |
| SingleFlight.ArrivalIsSentOn | pkg/httpapi/cache.go:556-610 | and any other request waits for the computation in flight or becomes it |
| SingleFlight.WaiterIsServed | pkg/httpapi/cache.go:591-610 | a waiter that wakes is answered with the entry when there is one at most ttl and grace old, and computes for itself otherwise |
| SingleFlight.SuccessIsStored | pkg/httpapi/cache.go:628-641 | what a computation keeps is stored exactly when its status is 200 and its body neither too big nor empty, with the time, the ttl and the headers it had |
| SingleFlight.RunKeepsInv | pkg/httpapi/cache.go:556-626 | the invariant of all of the above holds in every run |
| ResponseCache.LookupByTheClock | pkg/httpapi/cache.go:208-235 | in plain arithmetic: the entry is returned exactly when at most ttl and grace old, it is fresh exactly when at most ttl old, and a lookup that is not fresh waits for the computation in flight or claims the next one; counters and all else accordingly |
| ResponseCache.Cache.LookUp | pkg/httpapi/cache.go:208-235 | the lookup under the lock does that: what it returns, counts and claims is stated by the clock |
| ResponseCache.Cache.Done | pkg/httpapi/cache.go:238-245 | releases a claim and closes its channel; a second call does nothing |
| ResponseCache.Cache.Get | pkg/httpapi/cache.go:250-258 | an entry exactly while it is at most ttl and grace old |
| ResponseCache.Cache.Put | pkg/httpapi/cache.go:260-280 | stores, first dropping what can no longer be served, then starting over when still full |
| ResponseCache.StoredIsBounded | pkg/httpapi/cache.go:260-280 | the bound on entries, and that a servable entry is lost only to a replacement or a full map |
| CacheKey.KeysAgreeExactlyWhen | pkg/httpapi/cache.go:453-512 | two requests share a key exactly when path and encoding agree and, for queries that parse, every parameter that is not a tracking one has the same values in the same order and the networks are the same or all; in whatever order parameters come |
| CacheKey.TrackingIsAboutClicks | pkg/httpapi/cache.go:474-488 | nothing but utm_ parameters and twelve click and campaign ids is left out of a key |
| CacheKey.EqualKeysAskTheSame | pkg/httpapi/cache.go:453-512 | two requests with one key have the same escaped path and encoding, the same resolved network and the same values in the same order of every parameter that is not a tracking one |
| CacheKey.CanonicalParses | pkg/httpapi/cache.go:490-512 | a canonical query parses exactly when the raw one did |
| CacheKey.KeptKeepsMeaning | pkg/httpapi/cache.go:490-512 | dropping tracking parameters and a network that means all keeps every other value and the network handlers resolve |
| CacheKey.EncodeParses | pkg/httpapi/cache.go:511-511 | encoding and parsing parameters are inverse, up to the order by key |
| CacheKey.EscapeRoundTrips | pkg/httpapi/cache.go:511-511 | escaping and unescaping are inverse on every byte string |
| Compress.DeliversWhatWasWritten | pkg/httpapi/compress.go:84-191 | for every sequence of calls one head is sent, with the first status, and the delivered body is what was written or decompresses to it when the head says gzip; a status without a body has none |
| Compress.StoresWhatWasDelivered | pkg/httpapi/cache.go:315-354 | the stored body is exactly the delivered one, under the status it went out with, or nothing is stored |
| Compress.StoredExactlyWhen | pkg/httpapi/cache.go:628-631 | a response is stored exactly when its first status is 200, nothing flushed, and what was delivered is neither empty nor over the cap |
| Compress.FlushedIsNeverStored | pkg/httpapi/cache.go:327-354 | a response that flushed or outgrew the cap is never stored, and nothing of it is kept |
| Compress.ChosenOnce | pkg/httpapi/compress.go:130-165 | once made, the choice of encoding stands and no second head is sent |
| Compress.ZippedExactlyWhen | pkg/httpapi/compress.go:130-165 | a handler that sets no encoding is sent compressed exactly when, under a status that may have a body, it writes 1024 bytes or more or flushes, and the content type its head goes out with is JSON, JavaScript, SVG or text, not an event stream |
| Compress.TypeDecides | pkg/httpapi/compress.go:52-59 | so a handler that sets one type and writes 1024 bytes is sent compressed exactly when the type, in any case and whatever follows a semicolon, is one of these |
| Compress.CompressibleIs | pkg/httpapi/compress.go:52-59 | the types that are worth compressing, by name |
| Compress.HeadersFollowTheCalls | pkg/httpapi/compress.go:130-165 | the head carries the headers as they are at the first call that settles the encoding (a flush, the write that reaches 1024 bytes, a status without a body), and the header map goes on changing after it |
| Compress.ReplayIsTheDelivery | pkg/httpapi/cache.go:632-640 | a replayed hit carries the delivered bytes, and the stored content type and encoding are those that were sent exactly when no call after the one that sent the head leaves another value |
| Compress.LateHeaderIsStored | pkg/httpapi/cache.go:632-640 | a family of calls on which they are not |
| Compress.DirectDelivers | pkg/httpapi/cache.go:322-339 | without compression the connection sends one head with the first status, and every write under it, if the status has a body |
| Compress.DirectStoreIsHonestExactlyWhen | pkg/httpapi/cache.go:322-331 | the caching writer remembers the last status while the connection sends the first: what is stored as a success was sent with status 200 exactly when no call set 200 over another status, and then the stored body is the delivered one |
| Compress.SecondStatusWins | pkg/httpapi/cache.go:322-331 | the calls on which it was not: the head says 500 and the body is stored as a success |
| Compress.DirectHeadersFollowTheCalls | pkg/httpapi/cache.go:322-339 | without compression the head carries the headers as they are at the first status, write or flush |
| Compress.DirectReplayIsTheDelivery | pkg/httpapi/cache.go:632-640 | and the stored headers are those that were sent exactly when no later call leaves another value |
| Compress.LateHeaderIsStoredDirect | pkg/httpapi/cache.go:632-640 | calls on which they are not |
| Compress.GzipWriter.Serve | pkg/httpapi/compress.go:199-222 | a whole handler run through the nested writers ends in the state the run function gives, and sends compressed what is worth it |
| Compress.GzipWriter.Settle | pkg/httpapi/compress.go:130-165 | `commit` on the nested objects: gzip for enough bytes of a type that is worth it, and no encoding yet |
| Compress.GzipWriter.SendHeader | pkg/httpapi/compress.go:94-108 | `WriteHeader` on the nested objects |
| Compress.GzipWriter.Send | pkg/httpapi/compress.go:110-128 | `Write` on the nested objects |
| Compress.GzipWriter.FlushThrough | pkg/httpapi/compress.go:183-191 | `Flush` on the nested objects |
| Compress.GzipWriter.Finish | pkg/httpapi/compress.go:168-180 | `close` on the nested objects |
| Compress.CachingWriter.Write | pkg/httpapi/cache.go:327-339 | `Write` of the caching writer: passes on, and keeps a copy up to the cap |
| Compress.CachingWriter.Serve | pkg/httpapi/cache.go:611-616 | a whole handler run on the caching writer alone ends in the state the direct run function gives |
| Regroup.ConvertBits | pkg/gnoaddr/gnoaddr.go:109-124 | the accumulator overflows and is never masked, and the groups are the big-endian base-32 digits of the bytes padded with zero bits all the same |
| Regroup.GroupsSpellTheBytes | pkg/gnoaddr/gnoaddr.go:105-124 | all groups below 32, their number the bits over five rounded up, and together they spell the bytes followed by zero bits |
| Regroup.RegroupingRoundTrips | pkg/gnoaddr/gnoaddr.go:109-124 | regrouping the groups gives the bytes back |
| Regroup.GroupsAreInjective | pkg/gnoaddr/gnoaddr.go:109-124 | two byte strings of one length share their groups only when equal |
| Regroup.AddressNeedsNoPadding | pkg/gnoaddr/gnoaddr.go:105-108 | twenty bytes are 32 groups and nothing is padded |
| Regroup.OverflowUnseen | pkg/gnoaddr/gnoaddr.go:111-117 | shifting back what overflowed shows the same five bits |
| Checksum.ComputePolymod | pkg/gnoaddr/gnoaddr.go:149-162 | the loop computes the fold of the step function and stays below two to the thirty |
| Checksum.Next | pkg/gnoaddr/gnoaddr.go:152-160 | one value: shift, then the five generators |
| Checksum.AbsorbIsLinear | pkg/gnoaddr/gnoaddr.go:152-160 | one step is linear over exclusive or |
| SymbolRegister.RunIsLinear | pkg/gnoaddr/gnoaddr.go:149-162 | a whole run is linear in register and symbols |
| SymbolRegister.OneCompletion | pkg/gnoaddr/gnoaddr.go:126-135 | six last symbols bring a linear register to a goal exactly when they are those of what zeros in their place lack |
| Checksum.BchIsLawful | pkg/gnoaddr/gnoaddr.go:149-162 | the register of the code is linear, and taking a symbol in and cutting it out undo each other |
| Checksum.AbsorbIsOneToOne | pkg/gnoaddr/gnoaddr.go:152-160 | different registers stay different |
| Checksum.ChecksumVerifies | pkg/gnoaddr/gnoaddr.go:126-135 | for every prefix and every data the polymod of expanded prefix, data and checksum is 1 (section "Checksum" of BIP-173) |
| Checksum.ChecksumIsTheOnlyOne | pkg/gnoaddr/gnoaddr.go:126-135 | and no other six symbols make it 1 |
| Checksum.OneWrongSymbolShows | pkg/gnoaddr/gnoaddr.go:149-162 | one wrong symbol anywhere always changes the polymod |
| Checksum.ComputeChecksum | pkg/gnoaddr/gnoaddr.go:126-135 | the six bytes, filled one by one; with any expansion of the prefix that BIP-173 allows, prefix, data and they have polymod 1 |
| Checksum.HrpExpandIsSymbols | pkg/gnoaddr/gnoaddr.go:137-147 | the expanded prefix is made of five-bit values |
| Checksum.HrpExpandIsExpansion | pkg/gnoaddr/gnoaddr.go:137-147 | the expanded prefix is the only list whose entry i times 32 plus entry n + 1 + i is the i-th of n characters, with a zero between |
| Checksum.AnyExpansionVerifies | pkg/gnoaddr/gnoaddr.go:126-147 | so the checksum verifies against that list, however it is computed |
| Address.Encode | pkg/gnoaddr/gnoaddr.go:91-103 | prefix, separator, and the letters of data and a checksum that verifies against the prefix expanded as BIP-173 says |
| Address.AddressReadsBack | pkg/gnoaddr/gnoaddr.go:91-103 | the letters after the separator read back as a body that verifies, and the bytes regroup out of it |
| Address.AddressesAreOneToOne | pkg/gnoaddr/gnoaddr.go:91-103 | no two prefixes and no two byte strings, of whatever lengths, share an address |
| Address.OneWrongLetterShows | pkg/gnoaddr/gnoaddr.go:84-103 | an address with one letter replaced by another of the character set never verifies |
| Bip173.ExampleVerifies | pkg/gnoaddr/gnoaddr.go:149-162 | the prefix, data and checksum of the first address in section "Examples" of BIP-173 have polymod 1 |
| Bip173.ExampleChecksum | pkg/gnoaddr/gnoaddr.go:126-135 | the checksum computed for that prefix and data is the published one |
| Bip173.ExampleIsPublished | pkg/gnoaddr/gnoaddr.go:91-103 | and spelt out they are the published address |
| Bip173.LettersAreTabled | pkg/gnoaddr/gnoaddr.go:89-101 | each of the 32 letters is the one in the standard's table |
| Glossary.Search.Visit | pkg/glossary/glossary.go:199-219 | returns with the term finished and the path restored, or with a chain of references that comes back; ends on the count of names not yet seen |
| Glossary.Search.Run | pkg/glossary/glossary.go:222-227 | no error exactly when no definition leads back to itself |
| Glossary.CheckAcyclic | pkg/glossary/glossary.go:191-228 | the same for the whole table, visited in alphabetical order; an error names a real cycle |
| Glossary.CheckClosure | pkg/glossary/glossary.go:174-189 | no error exactly when every reference is to another term of the table, and an error names an offending reference |
| Glossary.ReadRows | pkg/glossary/glossary.go:84-115 | the rows are taken in exactly when each has a new term and one to three sentences |
| Glossary.Parse | pkg/glossary/glossary.go:84-124 | accepted exactly when the rows are in order, every reference resolves and nothing is circular |
| Glossary.BottomUpIsAcyclic | pkg/glossary/glossary.go:191-193 | terms that can be written down so that each refers to earlier ones have no cycle |
| Glossary.ReferencesBottomOut | pkg/glossary/glossary.go:191-193 | a reader following references in an accepted table stops within as many steps as there are terms |
| Generations.ComputeSplit | pkg/discover/generation.go:76-94 | the scan over trailing digits gives the stem and the number |
| Generations.SplitByDigits | pkg/discover/generation.go:76-94 | a segment that ends in exactly one or two digits has their number as its generation, the last digit the ones and the one before the tens; any other has none |
| Generations.SplitRebuilds | pkg/discover/generation.go:69-94 | the segment is the stem, perhaps a v, and one or two digits that spell the generation; or it has no generation |
| Generations.ComputeGeneration | pkg/discover/generation.go:48-67 | the family and the vector of a path |
| Generations.FamilyMeansSameStems | pkg/discover/generation.go:18-24 | two paths are one family exactly when chain, kind, namespace and every stem below them agree |
| Generations.SegmentsOfJoin | pkg/discover/generation.go:49-66 | splitting undoes joining |
| Generations.ComputeLess | pkg/discover/generation.go:102-120 | the loop decides whether the first differing entry, zeros appended, is smaller on the left |
| Generations.EarlierIsStrict | pkg/discover/generation.go:96-120 | no two vectors are each earlier than the other, and exactly the zero-padded equals are neither |
| Generations.EarlierIsTransitive | pkg/discover/generation.go:96-120 | and the order is transitive |
| Cards.DeriveGenerations | pkg/httpapi/apps_generations.go:33-102 | the lists after the pass are the curated ones and the derived edges, and these are exactly the pairs that are neighbours in their family's line, the newer strictly later and deployed no earlier, the older on no curated list: a chain, never a star |
| Cards.OneEdgeIntoPath | pkg/httpapi/apps_generations.go:30-32 | a path has at most one derived edge into it, even when several cards carry it |
| Cards.SettledIsExact | pkg/httpapi/apps_generations.go:74-95 | what the pass leaves settled, pair by pair and in whatever order of families, is all of those edges |
| Cards.LinkPair | pkg/httpapi/apps_generations.go:74-95 | one pair of neighbours: linked when later, unclaimed and not deployed earlier |
| Cards.Group | pkg/httpapi/apps_generations.go:38-48 | the families and their members in order |
| Cards.ListsAfter | pkg/httpapi/apps_generations.go:92-94 | a list gains exactly the paths of its derived edges, and nothing else of a card changes but the label |
| Cards.OneReplacement | pkg/httpapi/apps_generations.go:50-58 | a path with a derived edge is on one list only, and was on no curated one |
| Cards.LabelsNeverSayBoth | pkg/httpapi/apps_generations.go:93-114 | no list starts with a label, so the label for mixed lists never comes about |
| Cards.LabelIsHonestExactlyWhenPure | pkg/httpapi/apps_generations.go:93-114 | the label is right exactly when the list was empty before the pass, or the card does not follow a generation that no list replaces |
| Cards.MixedListIsCalledDerived | pkg/httpapi/apps_generations.go:93-114 | two generations of one family, the second with a curated list: the list ends up mixed and says derived |
| Cards.TwoGenerationsExist | pkg/httpapi/apps_generations.go:30-32 | concrete paths that are such generations |
| Collapse.CollapseSuperseded | pkg/httpapi/apps.go:511-566 | every replaced card hangs on its survivor without its own previous generations; the page keeps the cards nothing replaces |
| Collapse.FindSurvivor | pkg/httpapi/apps.go:532-547 | the climb along the replacements, given up after one step more than there are cards |
| Collapse.EveryCardOnce | pkg/httpapi/apps.go:508-566 | a card that is not lost is on the page once: standing, or hanging on one standing card and on no other |
| Collapse.LostExactlyWhenCircular | pkg/httpapi/apps.go:532-566 | a replaced card is lost exactly when following its replacements comes back to a card |
| Collapse.KeptWhenNotCircular | pkg/httpapi/apps.go:532-566 | whatever the lists hold, a card is kept when nothing is circular from it |
| Collapse.LostExactlyWhenPlanIsCircular | pkg/httpapi/apps_generations.go:28-102 | deriving and then collapsing lose a card exactly when following, from it, the lists as they were before and the next generations comes back to a card |
| Collapse.NextIsPlanned | pkg/httpapi/apps_generations.go:50-58 | after deriving, a path's replacement is the last card whose own list names it, or else the next generation |
| Collapse.BothGenerationsAreLost | pkg/httpapi/apps.go:532-566 | two generations of one family, the first listing the second: both cards vanish from the page |
| Collapse.DerivingLosesNoCard | pkg/httpapi/apps_generations.go:28-102 | if a strict order agrees with the curated lists and the generations, deriving and collapsing lose no card |
| Collapse.DerivedAloneLosesNoCard | pkg/httpapi/apps_generations.go:28-102 | without curated lists nothing more is needed |
| FoldCovered.FoldCoveredCards | pkg/httpapi/apps.go:582-617 | parts join the first card that covers them; the page keeps the rest |
| FoldCovered.FirstClaimWins | pkg/httpapi/apps.go:583-600 | a path goes to the first card that wants it, and to none when none does |
| FoldCovered.EveryCardOnce | pkg/httpapi/apps.go:579-617 | with distinct paths every card is on the page once: standing, or a part of one standing card and of no other |
| FoldCovered.FoldShowsExactly | pkg/httpapi/apps.go:604-617 | the page shows what the standing cards showed and the paths of the parts; a part's own previous generations and parts are gone unless a standing card has them |
| FoldCovered.TwinsVanish | pkg/httpapi/apps.go:586-616 | two cards of one path, one covering it, both leave the page |
| Inherit.InheritAcrossGenerations | pkg/httpapi/apps_generations.go:140-161 | every card ends as one function of the cards as they were gives it: survivors take the best told along their line of ancestors, all others stay |
| Inherit.PermutedCardsPermuteOutcomes | pkg/httpapi/apps_generations.go:126-161 | where no two cards share a path the order of the cards does not matter: a card has the same outcome wherever it stands, so permuted cards have permuted outcomes |
| Inherit.Ancestry | pkg/httpapi/apps_generations.go:163-183 | all ancestors, each once, none before a nearer one, in the order that the lists and the paths determine; the limit never binds |
| Inherit.TurnKeepsBound | pkg/httpapi/apps_generations.go:168-181 | one turn of the search changes nothing of what it has found and will find |
| Inherit.LimitNeverBinds | pkg/httpapi/apps_generations.go:168-168 | there are fewer ancestors than cards |
| Inherit.AdoptLine | pkg/httpapi/apps_generations.go:157-159 | the survivor adopts from each ancestor in turn |
| Inherit.SurvivorHasTheBest | pkg/httpapi/apps_generations.go:134-208 | name, description, website and category each end at the highest rank told by the card or an ancestor, the card itself and then the nearest winning ties |
| Inherit.RanksAscend | pkg/httpapi/apps_generations.go:116-132 | the sources of a field in ascending order of trust, and nothing for any other |
| Inherit.InheritedFromNearestGiver | pkg/httpapi/apps_generations.go:205-207 | a card that took something names the nearest ancestor that gave it anything; one that names none is unchanged |
| Inherit.AncestorsAreReplaced | pkg/httpapi/apps_generations.go:153-156 | an ancestor is never a survivor, so no turn reads what another turn wrote |
| Paging.PageIsExact | pkg/httpapi/api_packages.go:103-127 | the first offset and limit rows of every network give the same page as all their rows, when each lists in the comparator's order |
| Paging.PagesTile | pkg/httpapi/api_packages.go:103-127 | pages read one after the other give every row once and in order |
| Paging.EveryComparatorIsStrictWeak | pkg/httpapi/api_packages.go:142-183 | every comparator is a strict weak order |
| Paging.SortedIsListed | pkg/httpapi/api_packages.go:142-183 | what each sort key means for the list: counts from the most down, names ascending, the latest time first and rows without one behind |
| Base.BeforeIsLexical | pkg/httpapi/api_packages.go:170-170 | the order on strings: they agree up to a place where the first ends or has the smaller byte |
| Paging.MergedPage | pkg/httpapi/api_packages.go:103-127 | answers concatenated in configured order, failed networks left out, sorted stably, sliced |
| Paging.SortMerged | pkg/httpapi/api_packages.go:142-183 | the stable sort in place, and the list in the order that the key means |
| Sorting.SortIsStable | pkg/httpapi/api_packages.go:142-183 | the sort used throughout: the same elements, in order, ties as they stood |
| Sorting.TopOfTops | pkg/httpapi/api_packages.go:103-116 | the first k of several ordered lists sorted together depend only on the first k of each |
| Ranking.ApplyDamping | pkg/httpapi/api_discover.go:349-370 | scores scaled by the event's place among its actor's, then ranked again |
| Ranking.RankFeed | pkg/httpapi/api_discover.go:190-204 | the rows of the feed: ranked, damped and ranked again, capped |
| Ranking.ScoreNeverExceedsBase | pkg/httpapi/api_discover.go:159-162 | in the feed, after ranking, damping and the cap, no row scores above its stored base or below nothing, whatever its age and its place |
| Ranking.ActorOrderSurvives | pkg/httpapi/api_discover.go:346-370 | two events of one actor stand in the final ranking as they stood before the damping |
| Ranking.OutranksIsTotal | pkg/httpapi/api_discover.go:190-202 | of two events with different ids one outranks the other |
| Ranking.RankedInOrder | pkg/httpapi/api_discover.go:194-202 | a ranked list reads from the highest score down, equal scores from the newest on, the rest by id |
| Ranking.ApplyDiversityCap | pkg/httpapi/api_discover.go:375-403 | kept rows, then demoted rows marked |
| Ranking.CapLosesNothing | pkg/httpapi/api_discover.go:372-403 | kept and demoted rows together are the rows there were, scores untouched |
| Ranking.CapKeepsOrder | pkg/httpapi/api_discover.go:383-402 | kept rows stand in their order, and so do demoted ones |
| Ranking.QuotasHold | pkg/httpapi/api_discover.go:376-400 | among the first rows kept, up to the window, no actor and no namespace has more than its quota |
| Ranking.PageQuotas | pkg/httpapi/api_discover.go:375-400 | of the first twenty rows at most three are one actor's and four one namespace's; of the highlights, one and two |
| Ranking.DemotedForCause | pkg/httpapi/api_discover.go:384-397 | a row is demoted only while the window is open and its actor or namespace has its quota |
| Ranking.DemotedIsOneTooMany | pkg/httpapi/api_discover.go:384-397 | and a row demoted would have been one too many of them |
| Ranking.DampFalls | pkg/discover/score.go:139-144 | a later place of one actor is damped more |
| Ranking.DampInNumbers | pkg/discover/score.go:139-144 | an actor's first event keeps its score, and its n-th is worth two parts in n + 1 |
| Ranking.RecencyInNumbers | pkg/discover/score.go:121-130 | a score halves every three days, and does not fade before it is any age |
| Spike.Detect | pkg/discover/spike.go:97-163 | every day is judged from its own baseline |
| Spike.CollectBaseline | pkg/discover/spike.go:100-106 | at most the seven days before, none before the start |
| Spike.BaselineIsTheWeekBefore | pkg/discover/spike.go:100-106 | the days a day is judged by are the seven before it, or as many as there are from the start on, newest first |
| Spike.Judge | pkg/discover/spike.go:108-160 | median, deviation, sigma with its fallback, and the three gates |
| Spike.FiresByTheNumbers | pkg/discover/spike.go:108-160 | a day fires exactly when three days or more precede it, it is three and a half spreads above their median (or above it at all where there is no spread), at least the floor above it, and at least twice a median that is not nothing; and otherwise it says which failed first |
| Spike.VerdictIsCausal | pkg/discover/spike.go:97-163 | a verdict depends on the day, the seven days before it, the floor and the start only |
| Spike.RaisingADayKeepsItFired | pkg/discover/spike.go:136-159 | raising a day's own value never turns a fired day off |
| Spike.MedianIsRobust | pkg/discover/spike.go:20-26 | changing fewer than half of the baseline days leaves the median between two days that were not touched |
| Spike.MedianHalves | pkg/discover/spike.go:176-187 | half the values or more are at least the median, half or more at most |
| Spike.ComputeMedian | pkg/discover/spike.go:176-187 | the median from a sorted copy |

## Left out

- SQL, schema and queries: stores are maps and sequences, changed in the transactions the code uses.
- RPC, GraphQL transport, JSON and base64 parsing, gzip and SHA-256 internals.
- `Derive` and `DeriveStorageDeposit`: a regular expression and a hash in front of `Encode`.
- `DecodeObject`: one object's value walked on its own.
- The glossary's line scanning and its regular expressions for versions, references and sentences: `Parse` starts from the rows cut out of the table.
- The `Retry-After` arithmetic, contributor counts and discovery in the GitHub syncer.
- Panics and client aborts in the cache, informational (1xx) responses, hijacked connections, liveness under unfair scheduling.
- The content type net/http guesses for a handler that sets none: it is sent without being put in the header map.
- The refresh of a stale entry outlives its request; its sixty-second deadline is not modelled, only that it ends.
- Sharing of backing arrays between Go slices: lists are values, so an append never shows through another card's list or the registry's.
- `refoldStats`, `inferCategories`, `rankApps`: statistics from the store and a plain sort.
- Negative `limit` and `offset` in paging, on which the slice expression panics.
- NaN and infinities in spike series, and rounding throughout.
- `ScoreTerms`, verdict counts and cursors of the feed: display only.
- The candidate pool of the feed and its cursor: the store's part.
- Collapse.LostExactlyWhenCircular: assumes no list names the empty path; with one that does, the climb may end at an off-chain card, and only `KeptWhenNotCircular` holds.
- Collapse.LostExactlyWhenPlanIsCircular: assumes the same of the curated lists.
- Inherit.PermutedCardsPermuteOutcomes: assumes on-chain cards have distinct paths; with two cards of one path the later one is the ancestor.
- FoldCovered.EveryCardOnce: assumes on-chain cards have distinct paths, as the directory builds them; `TwinsVanish` shows it is needed.
- Paging.PageIsExact: assumes each network lists its rows in the order of the comparator, which is the query's part.
- Ranking.ActorOrderSurvives: assumes distinct ids and scores that are not negative, as the store keeps them.
