# MTGOverlay core, modelled in Dafny

MTGOverlay follows the MTG Arena client log and turns it into an overlay of the cards in hand and on the battlefield. The pipeline has five stages:

- a **log tailer** reads the bytes appended to the log file;
- a **line parser** finds GRE game-state messages and scene changes in the text;
- the **game orchestrator** turns the parsed events into store updates;
- card identities are resolved against **Scryfall**, with a rate-limit throttle;
- a **card cache** keeps resolved cards in memory and on disk.

There is also a small **game-state store**, a five-zone record with a match id.

The project models each of these as the code does it:

- `Types` holds the identity shapes and `identityKey`.
- `Json` holds JavaScript values as a datatype, with truthiness, `===`, property reads and `for..of`.
- `Parser` has the extraction loops as methods, each proved equal to a recursive specification. Lemmas about those specifications cover the marker precedence, the greedy `/({.*})/` payload, and exceptions being swallowed into `[]`. They also cover the one-event-per-game-state rule, zone routing, and the order and selection of identities. `ParserScenarios` proves the four unit-test scenarios.
- `Orchestrator` has `GameOrchestrator` as a class with the dedup set, the timer flag and the calls it makes on the store and the Scryfall client. Each method is tied to a pure function over an `Orch` value. The lemmas prove four things:
  - the dedup invariant: one `resolveCard` per key between resets;
  - one `updateZones` call per game-state event;
  - the throttle rule;
  - the lookup choice.
- `State`, `LogTailer`, `Cache` and `Scryfall` are classes whose methods are tied to pure step functions. Lemmas on those functions cover overwrite and commutation of zone updates, the tailer's forward-only delta, the cache's read-your-write and stability, and the throttle spacing.

`JSON.parse` is a parameter `parse: string -> Option<Json>`, where `None` means it throws. Exceptions in the parser's tree walk are the `Threw` case of `Try`. A property read on `null`, `for..of` over a non-iterable, and `find` on a non-array throw as in JavaScript. Strings iterate as one-character strings.

Several points of the system's written design are not what the code does. The model follows the code on each of them:

- The design has the line parser buffer partial lines. The code hands each tailer chunk to `parseLine` whole (see Findings).
- The design leaves a key whose lookup failed unresolved, so it can be retried. The code adds the key to the dedup set before the lookup and never removes it, so a failed lookup is retried only after a `MatchStarted`.
- The design describes an in-flight set, art overrides, versioned snapshots, print-list fetches, and cache files named by a sanitised key. None of these exist in the code.

## Model

| member | source | states |
|---|---|---|
| Types.IdentityKeyOf | packages/shared/src/types.ts:11-18 | the first truthy rung wins: a non-zero mtgaId gives "mtga:"+id, else a non-zero grpId gives "grp:"+id, else a non-empty name gives "name:"+name+"\|"+(set or ""), else the key starts with "unknown:" |
| Types.NumberToString | packages/shared/src/types.ts:14-15 | the decimal text of a number is non-empty and starts with '-' exactly for negatives |
| Types.NumberToStringInjective | packages/shared/src/types.ts:14-15 | different numbers have different decimal texts |
| Types.KeyRevealsKind | packages/shared/src/types.ts:14-17 | the key's prefix gives back the rung that produced it |
| Types.KeysOfDifferentKindsDiffer | packages/shared/src/types.ts:14-17 | keys from different rungs never collide |
| Types.MtgaKeyIffSameMtgaId | packages/shared/src/types.ts:13-14 | for an mtga-keyed identity, another identity has the same key iff it is mtga-keyed with the same mtgaId, whatever its other fields |
| Types.GrpKeyIffSameGrpId | packages/shared/src/types.ts:15 | for a grp-keyed identity, another identity has the same key iff it is grp-keyed with the same grpId |
| Types.NameKeyIffSameNameAndSet | packages/shared/src/types.ts:16 | for names without '\|', name keys agree iff names and sets (missing set as "") agree |
| Types.NameWithBarCollides | packages/shared/src/types.ts:16 | a name containing '\|' collides with a different name/set pair |
| Json.Member | packages/core/src/parser.ts:32-35 | a property read gives a value exactly when the value is an object that has the property, and then gives that property |
| Json.Iterate | packages/core/src/parser.ts:59 | `for..of` succeeds exactly on arrays and strings; an array yields its items, a string as many items as it has characters |
| Parser.RunEnd | packages/core/src/parser.ts:8 | the end of the run `.` can match: no line terminator before it, a terminator at it |
| Parser.LastClose | packages/core/src/parser.ts:8 | the last '}' in a range, or none when there is none |
| Parser.MatchAt | packages/core/src/parser.ts:8 | a match from a '{' ends just after the last '}' of the run `.` can reach, and exists whenever that run holds a '}' |
| Parser.BraceMatch | packages/core/src/parser.ts:8 | a match found starts at '{' and ends with '}' |
| Parser.BraceMatchOnOneLine | packages/core/src/parser.ts:8 | on a line without terminators the greedy match exists iff some '}' follows the first '{', and spans from the first '{' to the last '}' |
| Parser.PayloadOnOneLine | packages/core/src/parser.ts:8-10 | the captured payload is exactly the text from the first '{' to the last '}', and exists iff a '}' follows the first '{' |
| Parser.NoClosingBraceNoPayload | packages/core/src/parser.ts:8-9 | a line without '}' has no payload |
| Parser.FindObject | packages/core/src/parser.ts:92 | `find` returns the first object whose instanceId matches (all earlier ones pass over), returns nothing iff every element passes over, and throws only on a null element |
| Parser.IdentityOf | packages/core/src/parser.ts:94-98 | mtgaId is cardTitleId when it is a truthy number, else 0; grpId is copied; no name and no set |
| Parser.Identities | packages/core/src/parser.ts:88-90 | no instance ids or no game objects (falsy) gives []; instance ids that cannot be iterated throw |
| Parser.FindResults | packages/core/src/parser.ts:91-92 | one `find` result per id, in order |
| Parser.PicksSelects | packages/core/src/parser.ts:91-100 | the identities kept are the found objects' identities, at increasing positions that cover every found id |
| Parser.IdentitiesInPicks | packages/core/src/parser.ts:91-100 | when the loop does not throw, no `find` threw and the result is the identities of the found objects in id order |
| Parser.IdentitiesInOrder | packages/core/src/parser.ts:89-101 | extractIdentities keeps instance-id order, skips unmatched ids, and returns at most as many identities as ids |
| Parser.SelectionShorter | packages/core/src/parser.ts:91-100 | a selection is never longer than its input |
| Parser.ZoneStep | packages/core/src/parser.ts:66-70 | type 31 or "ZoneType_Hand" feeds hand; otherwise type 28 or "ZoneType_Battlefield" feeds battlefield; any other zone adds nothing; a null zone throws |
| Parser.ZoneListsConcat | packages/core/src/parser.ts:59-71 | the zone loop over two runs of zones is the concatenation of the two results |
| Parser.GameStateEvent | packages/core/src/parser.ts:44-85 | a successful result is a GameStateChanged carrying the message; without truthy zones both lists are empty |
| Parser.MessageEvents | packages/core/src/parser.ts:34-38 | every event produced is a GameStateChanged |
| Parser.GreEvents | packages/core/src/parser.ts:27-42 | no event unless the message list is an array; only GameStateChanged events |
| Parser.MessageEventsOnePerGameState | packages/core/src/parser.ts:33-39 | exactly one event per message with a truthy gameStateMessage, in order, each built from that message |
| Parser.MessageEventsThrowIff | packages/core/src/parser.ts:34-36 | the walk throws iff some message is null or some game state fails |
| Parser.LineEvents | packages/core/src/parser.ts:3-25 | the GRE marker takes precedence; a scene-change line yields one MatchStarted iff it says Match; other lines yield []; a missing payload, a failed JSON.parse or any throw yields [] |
| Parser.ExtractIdentities | packages/core/src/parser.ts:87-102 | the loop computes the extraction specification, including its throws |
| Parser.ParseZone | packages/core/src/parser.ts:66-70 | one pass of the zone loop computes ZoneStep |
| Parser.ParseZones | packages/core/src/parser.ts:59-71 | the zone loop concatenates the zones' contributions, or throws |
| Parser.ParseGameStateMessage | packages/core/src/parser.ts:44-85 | computes GameStateEvent |
| Parser.ParseGreMessage | packages/core/src/parser.ts:27-42 | computes GreEvents |
| Parser.ParseLine | packages/core/src/parser.ts:3-25 | computes LineEvents and never throws |
| ParserScenarios.IgnoresNonGreLine | packages/core/test/parser.test.ts:5-8 | the random log line yields [] |
| ParserScenarios.SceneChangeMatchStarts | packages/core/test/parser.test.ts:10-14 | the scene-change line yields exactly [MatchStarted] |
| ParserScenarios.PayloadOfWrapped | packages/core/src/parser.ts:8-10 | after a prefix without '{', a braced one-line text followed by no '}' or line break is exactly the payload |
| ParserScenarios.GreSampleParses | packages/core/test/parser.test.ts:16-54 | the test's line, the marker followed by a stringified object in parentheses that JSON.parse decodes to the sample, yields exactly one GameStateChanged: hand 1001 and 1002, battlefield 1003 |
| ParserScenarios.MalformedGreLineYieldsNothing | packages/core/test/parser.test.ts:56-60 | the malformed GRE line yields [] |
| Orchestrator.LookupFor | packages/core/src/orchestrator.ts:129-134 | lookup by mtgaId when truthy, else by name when truthy, else none |
| Orchestrator.LookupFollowsKeyKind | packages/core/src/orchestrator.ts:130-134 | a lookup by mtgaId happens exactly for mtga-keyed identities; name-keyed ones are looked up by name; unknown-keyed ones not at all |
| Orchestrator.UntitledObjectNeverLookedUp | packages/core/src/orchestrator.ts:130-134 | a parsed object without a truthy numeric cardTitleId starts no lookup, even when its grpId keys it |
| Orchestrator.StartResolution | packages/core/src/orchestrator.ts:122-134 | resolveCard records the resolution and the chosen lookup, and nothing else changes |
| Orchestrator.MetadataAsWritten | packages/core/src/orchestrator.ts:137-142 | metadata as written: name, image and oracle id of the card |
| Orchestrator.AsWrittenMetadataLosesScryfallId | packages/core/src/orchestrator.ts:140 | as written, the upserted scryfallId is always missing |
| Orchestrator.Metadata | packages/core/src/orchestrator.ts:137-142 | corrected metadata: the same fields, and scryfallId is the card's id |
| Orchestrator.MetadataKeepsScryfallId | packages/core/src/orchestrator.ts:137-142 | the corrected metadata names the Scryfall card of the response, by its id and its name |
| Orchestrator.Completed | packages/core/src/orchestrator.ts:136-145 | a found card is upserted under its key with the metadata as written (name, oracle id, image; no Scryfall id), then the store is touched; no card changes nothing |
| Orchestrator.CompletionLosesScryfallId | packages/core/src/orchestrator.ts:136-142 | as written, the upsert completing a lookup carries the card's name but never its Scryfall id |
| Orchestrator.KeysPointwise | packages/core/src/orchestrator.ts:107-120 | the keys have the identities' length and order, each the identity's key |
| Orchestrator.ResolveOne | packages/core/src/orchestrator.ts:110-118 | the key is in the set afterwards; the timer is untouched |
| Orchestrator.ResolveAll | packages/core/src/orchestrator.ts:107-120 | resolveIdentities returns the identities' keys, every one of them is in the set afterwards, and none is removed |
| Orchestrator.DedupResolveOne | packages/core/src/orchestrator.ts:114-117 | one loop pass keeps the dedup invariant |
| Orchestrator.DedupResolveAll | packages/core/src/orchestrator.ts:114-117 | resolveIdentities keeps the invariant, and afterwards every key of the list has been resolved since the last reset, none of them twice |
| Orchestrator.Throttle | packages/core/src/orchestrator.ts:68-71 | touch and arm the timer only when no timer is pending; otherwise nothing |
| Orchestrator.TimerFired | packages/core/src/orchestrator.ts:71-72 | the timer callback clears the flag and nothing else |
| Orchestrator.DedupApplyEvent | packages/core/src/orchestrator.ts:37-55 | each event keeps the dedup invariant |
| Orchestrator.DedupApplyEvents | packages/core/src/orchestrator.ts:37-55 | the event loop keeps the dedup invariant |
| Orchestrator.DedupThrottle | packages/core/src/orchestrator.ts:68-90 | the throttle and its timer keep the dedup invariant |
| Orchestrator.DedupApplyLine | packages/core/src/orchestrator.ts:31-66 | processLine keeps the dedup invariant |
| Orchestrator.DedupCompleted | packages/core/src/orchestrator.ts:136-145 | a settled lookup keeps the dedup invariant |
| Orchestrator.DedupApplyLines | packages/core/src/orchestrator.ts:31-66 | any sequence of lines keeps the dedup invariant |
| Orchestrator.MatchStartedClears | packages/core/src/orchestrator.ts:38-41 | MatchStarted resets the store and empties the set, so any identity is then resolved afresh |
| Orchestrator.KnownKeyNotRetried | packages/core/src/orchestrator.ts:114-116 | a key already in the set is not resolved again, even if its lookup failed |
| Orchestrator.EmptyLineChangesNothing | packages/core/src/orchestrator.ts:32-33 | a line with no events changes nothing and triggers no update |
| Orchestrator.ThrottleOncePerWindow | packages/core/src/orchestrator.ts:69-72 | a second trigger in the same window does nothing; after the timer fires the next trigger touches again |
| Orchestrator.ZoneUpdatesResolveAll | packages/core/src/orchestrator.ts:107-120 | resolveIdentities makes no updateZones call |
| Orchestrator.ZoneUpdatesApplyEvent | packages/core/src/orchestrator.ts:37-55 | a GameStateChanged adds one updateZones call with its hand and battlefield keys; other events add none |
| Orchestrator.ZoneUpdatesApplyEvents | packages/core/src/orchestrator.ts:37-55 | the event loop adds one updateZones call per GameStateChanged, in order |
| Orchestrator.OneZoneUpdatePerGameState | packages/core/src/orchestrator.ts:42-53 | processLine makes exactly one updateZones call per GameStateChanged of the line, in order, carrying its hand and battlefield keys |
| Orchestrator.SplitLines | packages/core/src/replay.ts:43 | `split('\n')` gives at least one piece |
| Orchestrator.SplitLinesRoundTrip | packages/core/src/replay.ts:43 | no piece contains a newline and joining the pieces gives the text back |
| Orchestrator.JoinLinesRoundTrip | packages/core/src/replay.ts:43 | splitting newline-free lines joined by newlines gives the lines back |
| Orchestrator.ChunkIsItsLines | packages/core/src/replay.ts:43-47 | a chunk joined from lines is handled exactly as those lines one by one |
| Orchestrator.ChunkAsOneLineLosesMatchStart | packages/core/src/orchestrator.ts:23 | as written, a chunk holding a scene change to Match and a GRE line changes nothing, though split into lines it resets the store |
| Orchestrator.GameOrchestrator.constructor | packages/core/src/orchestrator.ts:9-20 | empty set, no timer, no calls, invariant holds |
| Orchestrator.GameOrchestrator.ResolveCard | packages/core/src/orchestrator.ts:122-134 | the synchronous part of resolveCard computes StartResolution |
| Orchestrator.GameOrchestrator.CompleteResolution | packages/core/src/orchestrator.ts:136-145 | the continuation after the lookup computes Completed, upserting the metadata as written, and keeps the invariant |
| Orchestrator.GameOrchestrator.ResolveIdentities | packages/core/src/orchestrator.ts:107-120 | the loop computes ResolveAll and keeps the invariant |
| Orchestrator.GameOrchestrator.TriggerThrottledUpdate | packages/core/src/orchestrator.ts:68-105 | computes Throttle and keeps the invariant |
| Orchestrator.GameOrchestrator.OnThrottleTimer | packages/core/src/orchestrator.ts:71-72 | computes TimerFired and keeps the invariant |
| Orchestrator.GameOrchestrator.ProcessEvent | packages/core/src/orchestrator.ts:37-55 | one event of the loop, and whether it sets stateChanged |
| Orchestrator.GameOrchestrator.ProcessLine | packages/core/src/orchestrator.ts:31-66 | processLine computes ApplyLine and keeps the invariant |
| Orchestrator.GameOrchestrator.ProcessChunk | packages/core/src/orchestrator.ts:23 | corrected chunk handler: each line of the chunk is processed in turn |
| State.WithZone | packages/core/src/state.ts:35 | the named zone is replaced, the other four are kept |
| State.Initial | packages/core/src/state.ts:5-14 | no match id and all five zones empty |
| State.UpdateZoneState | packages/core/src/state.ts:34-35 | zone z becomes cards; the other zones and matchId are unchanged |
| State.SetMatchIdState | packages/core/src/state.ts:39-40 | only matchId changes |
| State.UpdateZoneOverwrites | packages/core/src/state.ts:35 | a second update of the same zone overwrites the first |
| State.UpdateZonesCommute | packages/core/src/state.ts:35 | updates of different zones commute |
| State.UpdateZoneWithSame | packages/core/src/state.ts:35 | writing a zone's own contents changes nothing |
| State.SetMatchIdCommutesWithUpdateZone | packages/core/src/state.ts:34-41 | setting the match id commutes with a zone update |
| State.GameStateStore.constructor | packages/core/src/state.ts:5-14 | starts in the initial state with nothing emitted |
| State.GameStateStore.GetState | packages/core/src/state.ts:16-18 | returns the state and changes nothing |
| State.GameStateStore.Reset | packages/core/src/state.ts:20-31 | the state becomes the initial one (so reset is idempotent), emitted once |
| State.GameStateStore.UpdateZone | packages/core/src/state.ts:34-36 | the new state is UpdateZoneState, emitted once |
| State.GameStateStore.SetMatchId | packages/core/src/state.ts:39-41 | the new state is SetMatchIdState, emitted once |
| LogTailer.Step | packages/core/src/log-tailer.ts:53-66 | the chunk is the bytes from the cursor to the end, and a file shorter than the cursor is read again from byte 0; no chunk when nothing is new; after a chunk the cursor is at the end |
| LogTailer.ChunksConcatenate | packages/core/src/log-tailer.ts:58-66 | with no truncation the chunks concatenate to the bytes from the start cursor to the end of the last observation, and the cursor ends at its size |
| LogTailer.ExistingContentNeverEmitted | packages/core/src/log-tailer.ts:24-25 | starting at the initial size, no byte present at start is ever emitted |
| LogTailer.NothingNewNothingEmitted | packages/core/src/log-tailer.ts:58-59 | no new bytes, no chunk and no cursor change |
| LogTailer.Tailer.constructor | packages/core/src/log-tailer.ts:10-13 | cursor 0, not tailing, nothing emitted |
| LogTailer.Tailer.Start | packages/core/src/log-tailer.ts:15-39 | a no-op when already tailing; a missing file emits one error and leaves the cursor and the flag; otherwise the cursor becomes the file size and tailing starts, or a failed watch emits an error |
| LogTailer.Tailer.Stop | packages/core/src/log-tailer.ts:41-47 | releases the watcher and clears the flag; the cursor and the events are kept |
| LogTailer.Tailer.OnWatchEvent | packages/core/src/log-tailer.ts:28-32 | only a "change" event reads new content |
| LogTailer.Tailer.ReadNewContent | packages/core/src/log-tailer.ts:49-73 | performs Step on the current file and emits its chunk; a missing or unreadable file emits one error |
| Cache.Lookup | packages/core/src/cache.ts:16-31 | a memory hit is returned without the disk; else a parsable disk entry is returned and put in memory; a miss or an unparsable entry returns nothing and leaves memory unchanged |
| Cache.Insert | packages/core/src/cache.ts:33-41 | memory always gets the card under its id; the disk only when the write succeeds |
| Cache.SetThenGet | packages/core/src/cache.ts:33-41 | after set, get of the card's id returns it from memory |
| Cache.SetLeavesOtherIds | packages/core/src/cache.ts:33-41 | set leaves other ids' lookups unchanged |
| Cache.GetIsStable | packages/core/src/cache.ts:16-31 | a second get returns the same; a hit is then served from memory |
| Cache.WrittenCardSurvivesRestart | packages/core/src/cache.ts:33-41 | a card written to disk is found by a fresh cache |
| Cache.GetKeepsMemory | packages/core/src/cache.ts:16-31 | get never drops or changes another memory entry |
| Cache.CardCache.constructor | packages/core/src/cache.ts:9-14 | empty memory over the given disk |
| Cache.CardCache.Get | packages/core/src/cache.ts:16-31 | computes Lookup and records a disk read exactly on a memory miss |
| Cache.CardCache.Set | packages/core/src/cache.ts:33-41 | computes Insert without reading the disk |
| Scryfall.Transform | packages/core/src/scryfall.ts:46-56 | id, name, set, collector number and oracle id are copied; mtgaId is arena_id when truthy else 0; the image is image_uris.normal, else card_faces[0].image_uris.normal, else "" |
| Scryfall.ImageComesFromResponse | packages/core/src/scryfall.ts:53 | the image is "" or one of the two response images |
| Scryfall.DoubleFacedImage | packages/core/src/scryfall.ts:53 | a card without top-level images shows its front face |
| Scryfall.Delay | packages/core/src/scryfall.ts:37-42 | the wait is 100 minus the elapsed time when below 100, else 0 |
| Scryfall.ThrottleSpacesRequests | packages/core/src/scryfall.ts:37-44 | when the wait lasts at least the requested time, the next request starts at least 100 after the previous one |
| Scryfall.DelayIsMinimal | packages/core/src/scryfall.ts:40-41 | no shorter wait would keep the spacing |
| Scryfall.ArenaUrl | packages/core/src/scryfall.ts:11 | the URL fetched for an arena id starts with the arena endpoint |
| Scryfall.ArenaUrlInjective | packages/core/src/scryfall.ts:11 | different ids request different URLs |
| Scryfall.Outcome | packages/core/src/scryfall.ts:10-21 | a card exactly for an ok response with a body, and then its transform; null otherwise |
| Scryfall.NotFoundIsNull | packages/core/src/scryfall.ts:12-13 | a 404 gives null |
| Scryfall.ScryfallClient.constructor | packages/core/src/scryfall.ts:6 | last request time 0, no calls |
| Scryfall.ScryfallClient.Throttle | packages/core/src/scryfall.ts:37-44 | waits Delay(last, now), then records the time it resumed as the last request time |
| Scryfall.ScryfallClient.GetCardByMtgaId | packages/core/src/scryfall.ts:8-22 | throttles, then fetches the arena URL of the id, and returns the outcome |
| Scryfall.ScryfallClient.SearchCard | packages/core/src/scryfall.ts:24-35 | throttles, then fetches the fuzzy name, and returns the outcome |

## Findings

| source | as written | input that shows it | evidently intended | confidence | as-written member | corrected member |
|---|---|---|---|---|---|---|
| packages/core/src/orchestrator.ts:23 | each 'newLine' chunk, every byte appended since the last read (packages/core/src/log-tailer.ts:61-69), goes to parseLine as one line; the GRE marker anywhere in the chunk hides the other lines | a chunk `[UnityCrossThreadLogger] <== Client.SceneChange(Match)` + "\n" + a GRE line without a payload, from one read: no event, the store is never reset | each line parsed on its own, as `split('\n')` does before emitting lines in packages/core/src/replay.ts:43-47 | medium, not executed | Orchestrator.ChunkAsOneLineLosesMatchStart | Orchestrator.GameOrchestrator.ProcessChunk |
| packages/core/src/orchestrator.ts:140 | the upsert reads `cardData.scryfallId`, a field the Card built by transform (packages/core/src/scryfall.ts:47-55) does not have, so it is always undefined | any resolved card, e.g. a response with id "abc": the stored scryfallId is undefined | `scryfallId: cardData.id` | high, not executed | Orchestrator.CompletionLosesScryfallId | Orchestrator.MetadataKeepsScryfallId |

## Left out

- Bytes to text: the tailer's chunk is bytes; the orchestrator takes the decoded string. UTF-8 decoding is not modelled.
- JSON.parse is an abstract partial function; JSON.stringify of an identity (the "unknown:" key) is written out only for the fields an identity can hold.
- Non-numeric values of cardTitleId or grpId from the log: the identity fields are optional integers, so a string or object there is not represented. Parser.NumberValue also drops a falsy non-numeric grpId (null, "", false). JSON.stringify keeps such a grpId, so for it the source's "unknown:" key differs from the model's.
- Json numbers are integers (`Num(int)`): a fractional cardTitleId such as 1.5, which the source keys as "mtga:1.5" and looks up, cannot occur. Types.NumberToString writes plain decimal digits, while `${n}` switches to exponent form from 1e21, so such magnitudes are not modelled.
- Scryfall.ScryfallCard: id, name, set and collector_number are required fields, so a response lacking them, which transform would copy as undefined, is not represented.
- Console logging: the 404 branch of getCardByMtgaId differs from other errors only in what it logs.
- The fuzzy-name URL text and encodeURIComponent: a named search is recorded by the name it asks for.
- Cache file paths: path.join and the file name are left out; the disk is a map from id to an optional parse result, so JSON that parses into something other than a Card, and partial writes, are not modelled.
- The cache directory creation in the constructor (mkdirSync) is left out.
- LogTailer.Tailer.ReadNewContent: statSync failing after existsSync succeeded in start is not modelled separately from a read failure.
- The emitted store state is a value, not the live object JavaScript emits, so aliasing between emitted states is not captured.
- setTimeout timing and the interleaving of asynchronous resolveCard calls: the model keeps the timer flag, the order of requested lookups, and the completion of a lookup as a separate step supplied by the environment.
- Scryfall.ScryfallClient.Throttle: each call is one uninterrupted step. Several lookups started before any throttle wait ends all read the same lastRequestTime, and that overlap is not modelled.
- The store the orchestrator calls (updateZones, upsertCard, touch) is not the GameStateStore of packages/core/src/state.ts, which has none of these methods; the orchestrator's calls are recorded as a log and not applied to State.GameStateStore.
- Orchestrator.GameOrchestrator.ProcessChunk: splits on '\n' only and keeps no partial line across chunks; a line cut between two reads is parsed as two fragments.
- GameOrchestrator.start and onSnapshot (event wiring) and the process and window wiring of the desktop app are left out.
- Art overrides, snapshots with version numbers, print-list fetches and draft statistics have no implementing code and are not modelled.
