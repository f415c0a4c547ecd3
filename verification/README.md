# ewb-server, modelled and proved in Dafny

`ewb-server` is a game server for block worlds. This project models the parts of it whose behaviour
is hardest to see from one function at a time, and proves what they keep: what a fire or a blast does
to the world, which replies the region cache may serve, what an exported world reads back as, that a
keyed hash computed in pieces is the hash of the whole, and what the lists a server shares between
threads hold after every operation.

Run `dafny verify dfyconfig.toml` to check everything.

## How it is laid out

Code of the server that changes things in place is a class or a method with a loop; each such method
is proved against a function of its inputs or of the old state, and the lemmas are about those
functions. Sections run under one lock are single steps of a state machine, and the theorems are over
every sequence of steps.

| modules | what they are about |
|---|---|
| `Voxels`, `BlockRules`, `BaseProfile`, `Decimal`, `TextLines`, `ByteStrings` | cells, block tables, base terrain, numerals, lines, little-endian fields |
| `Burn`, `BurnSteps`, `BurnShapes`, `BurnChain`, `BurnSafety`, `BurnVisits`, `BurnZones`, `BurnEffects`, `BurnLighting`, `BurnOutcome`, `BurnRun` | the burn: TNT chains, expansion fills, their reach, what they visit and read against their budget, the zones in their way, what they do to each cell, what a whole burn comes to, and the class that runs them |
| `StoredKinds`, `BurnSigns` | which kinds any run of edits and burns ever stores, and the signs a burn takes with its blocks |
| `FireSpread`, `BurnGuard` | the fire itself, the live burn, and the dry run on an overlay |
| `RegionQuery`, `SnapzCodec`, `RegionCache`, `OutQueue`, `RegionService`, `RegionAnswers` | region replies: records, wire lines, the reply cache, the output queue, all of them together under interleaving, and what a client that asked is told |
| `WorstRegion` | the heaviest reply an imported world could cause |
| `EdenExport`, `EdenFile`, `EdenImport`, `EdenRoundTrip`, `EdenSigns`, `EdenSignTrip`, `EdenZip` | the `.eden` world file: writing, reading, scanning, and all three in a row; its signs and its zip wrapper |
| `Auth`, `AuthFile` | SHA-256 by blocks, HMAC, PBKDF2, and the file of login records |
| `Matchmaker`, `Usernames`, `Limits` | the server registry, the player roster, the rate limiters |
| `SignStore`, `SignRuns`, `SignBoard` | signs: lines and slots, the list with its index, its burst and its sidecar over every run, and the object that holds them |
| `DurableWrite` | replacing a file so that a power loss leaves the old one or the new one |
| `Topmap`, `Sight` | the top block of every sampled column, the walk over the chunk columns, and that every part of the server takes a cell for the same block |

Foreign calls are parameters: the SHA-256 block function, deflate and inflate (taken to undo each
other where a round trip needs it), the zip checksum, the order the store walks its cells in, what an
operating system call answers, what a probe of a registered server says, and how long a session has
been silent. Times and rates in the limiters are reals. A string is a sequence of characters; where
bytes matter they are bytes.

## What came out false, and exactly when it holds

- The budget bounds the cells a burn visits, not the cells it reads: a sample a zone kept is visited and
  not read, and a TNT chain looks at its root once more than it counts. `BurnVisits.BurnBudget` gives the
  equality, and that a burn reads more than it visits exactly when its root is unprotected TNT and no
  zone kept a sample from it; with nothing protected in reach that is exactly when the root is TNT
  (`BurnVisits.UnzonedReads`). `BurnVisits.LoneTntOverruns` is an input: with a blast radius of 6 and a
  budget of 1037 cells, one TNT block alone reads 1038.
- The worst-region window is as wide as every reply only when the radius is at most half a chunk past
  whole chunks: `WorstRegion.SideFits` is an if-and-only-if, and `WorstRegion.Project` uses it.
- An exported world that is not zipped loads unless its seed spells a zip signature: `EdenRoundTrip.SeedDecides`
  names the three seeds. It loads whole exactly when its chunks and sign rows are no more than the
  reader's directory cap, which a raised size cap can exceed and the default one cannot:
  `EdenRoundTrip.WrittenReads` and `EdenRoundTrip.DefaultIsRoomy`.
- A scan gives back the very same store exactly when the store was in the file's own normal form and in
  its range: `EdenRoundTrip.RoundTrip`.
- A saved login whose name begins with `#` reads back as a comment: `AuthFile.FileRoundTrip` says exactly
  which names survive.
- Reloading a registry file does not check it for duplicates: `Matchmaker.LoadOk` says exactly when the
  registry it makes is in order.
- `worldSet` on its own takes the signs off a block only when the number it is given is the air id itself,
  though the store keeps as air every number whose low byte is 0 or 254. `SignBoard.Board.WorldSet` says
  exactly when the signs are gone. No caller passes another such number: over every run of edits and
  burns a write is stored as air exactly when it is a write of air (`StoredKinds.EveryWritePlain`).
- A world that comes in as a zip is searched for its end record one byte further back than the longest
  comment could push it: `EdenZip.EndIs` gives the exact stretch.
- A sign's text is cut to 95 bytes in a world file: `EdenSignTrip.SignsTrip` and `EdenSignTrip.NothingLost`.

## Model

| member | source | states |
|---|---|---|
| Voxels.KeyInjective | explode.h:333-336 | cells of the world have different 64-bit keys |
| BurnShapes.BlastExact | explode.h:257-267 | one blast samples exactly the cells of its sphere, poles left out, clipped to the world's height |
| BurnShapes.BlastCost | explode.h:80-93 | a blast never samples more cells than it is charged for, and just as many where its sphere stays within the world's height |
| BurnShapes.FillCost | explode.h:141-154 | the operations of one fill cost at most what a fill is charged for |
| BurnRun.BlastVisits | explode.h:84-93 | counts the charge of one blast |
| BurnChain.EnqueueBounded | explode.h:302-306 | explosions run plus links waiting never exceed the cap on blasts |
| BurnVisits.BurnBudget | explode.h:469-513 | a burn visits at most its budget, or one blast, or one link and its root; it reads each visited cell but the samples a zone kept, and a TNT root once more; and it reads more than it visits, or more than it is allowed to visit, exactly as that makes it |
| BurnVisits.StepReads | explode.h:268-430 | one operation in the world's height reads a cell for every visit, but for a sample a zone kept |
| BurnVisits.UnzonedReads | explode.h:496-513 | with nothing protected within burn reach, a burn reads more than it visits exactly when its root is TNT |
| BurnVisits.LoneTntOverruns | server_posix.cpp:5986-5991 | the least budget the server accepts for a blast radius of 6 lets a lone TNT block read one cell more than the budget |
| BurnSigns.BurnTakesSigns | server_posix.cpp:658-661 | a burn takes exactly the signs of the blocks it empties; one on a protected block or out of reach stays |
| StoredKinds.PlainAir | world_store.h:38-56 | a byte is stored as air exactly when it is air, but for the one byte the store keeps for mined cells |
| StoredKinds.BurnWritesPlain | explode.h:225-513 | in a world without that byte a burn never writes it, nor any number past a byte |
| StoredKinds.EveryWritePlain | server_posix.cpp:695-709 | over every run of builds, mines, paints, burns, operator and WorldEdit edits, a write is stored as air exactly when it is a write of air |
| BurnSafety.BurnSafe | explode.h:225-513 | every write and every zone question lies within burn reach of the root, reads go one cell further at most, no protected cell is written, no expansion block is queued twice, and the world is what the recorded writes made of it |
| BurnSafety.BurnFrame | explode.h:62-77 | a protected cell, and one out of burn reach, comes through every burn unchanged |
| BurnZones.NearbyDenies | server_posix.cpp:508-520 | inside the reach box the kept zones deny exactly what all zones deny |
| BurnZones.BurnNear | explode.h:225-513 | two protections that agree within burn reach give the same world, result and trace |
| BurnZones.ZonePrefilter | server_posix.cpp:508-520 | a burn told only of the zones its reach box meets is the burn told of every zone |
| BurnZones.ZoneSet.Add | server_posix.cpp:516-516 | adds a zone under a new name while there is room |
| BurnZones.ZoneSet.Blocking | server_posix.cpp:501-506 | the first zone that denies a cell, or none exactly when no zone does |
| BurnZones.ZoneSet.Intersects | server_posix.cpp:513-513 | whether an enforced zone meets a box |
| BurnZones.ZoneCheckNear | server_posix.cpp:511-520 | the zones that meet the box and bind this player, as a set of their own; null when there are none |
| BurnEffects.StepAt | explode.h:264-297 | one sample, fill cell or ring cell changes its own cell only, and that one as its rule says unless the store takes nothing |
| BurnEffects.RunAt | explode.h:244-308 | however often a run comes round to a cell, it leaves there what its operation makes of it once |
| BurnEffects.BlastEffect | explode.h:244-300 | a blast makes of every unprotected cell of its sphere what its colour says, and changes no other cell but its centre |
| BurnEffects.BlastCentre | explode.h:250-254 | a blast empties its centre |
| BurnEffects.BlastLinks | explode.h:284-292 | an uncoloured blast links exactly the unprotected TNT of its sphere and lights every unprotected expansion block in it; a coloured one does neither |
| BurnEffects.PassExact | explode.h:391-405 | a pass of a fill visits exactly the cells of its box |
| BurnEffects.FillEffect | explode.h:378-431 | every cell of the box that shows air takes the material, or at a side variant's corners the ramp its faces call for once the box is filled, and no other cell changes |
| BurnLighting.FillLights | explode.h:426-430 | every expansion block in the full box round a fill is lit, and the one firing is marked to go off again |
| BurnLighting.FireCentre | explode.h:433-451 | a fired expansion ends up as its own material without colour, air when its material is air |
| BurnLighting.EnqueueExact | explode.h:299-307 | links past the depth guard are dropped uncounted, the others are queued in order until the cap and counted past it |
| BurnLighting.QueueDrains | explode.h:317-327 | every queued expansion fires unless the budget cannot take another, and those left are counted as truncated |
| BurnLighting.BurnAnswers | explode.h:352-363 | every block lit in a burn was queued, or a zone protects it, or it is beyond the chain's reach |
| BurnOutcome.NothingBurns | explode.h:496-506 | a burn of a protected cell, of one where nothing is stored, or of stored air writes nothing and sets nothing off |
| BurnOutcome.BlockBurnsAway | explode.h:507-511 | any other block that is neither TNT nor an expansion becomes air by one write, and that is all |
| BurnOutcome.TntGoesOff | explode.h:469-483 | TNT at the root goes off first of all, its whole blast in the world before anything else; unless the burn is cut short every TNT linked goes off, the last found first, and then every expansion lit |
| BurnOutcome.ExpansionFires | explode.h:437-513 | an expansion at the root fires whatever the budget, its cell ends up as its material without colour whatever else is lit, and unless the burn is cut short every expansion lit fires |
| BurnOutcome.BurnComesTo | explode.h:496-513 | every burn is one of these four, by what is stored at its root |
| BurnOutcome.ChainRuns | explode.h:238-309 | a chain runs the blocks of its worklist and every block it links, the last found first, and its depth is the deepest of them |
| BurnOutcome.QueueFires | explode.h:317-327 | the queue fires from its front in the order lit, and its depth is the deepest of those fired |
| BurnOutcome.FirePaints | explode.h:433-451 | an open cell of a fired expansion ends up as its material in the colour its block had |
| BurnOutcome.FireKeeps | explode.h:366-451 | a fired expansion leaves every other block that shows anything but air |
| BlockRules.CornerMeets | block_rules.h:144-189 | a corner cell between two solid neighbours becomes the side piece whose solid faces are exactly those towards them; with more it is solid all round, else the plain ramp |
| BurnRun.World.Set | burn_guard.h:124-129 | a write is stored as the live store or the overlay stores it, refused only by the cap; an overlay's write is noted for restoring and TNT is remembered |
| BurnRun.World.Get | burn_guard.h:119-123 | a read sees the overlay, then the store |
| BurnRun.BurnRun.Get | explode.h:251-251 | a traced read |
| BurnRun.BurnRun.Set | explode.h:254-254 | a traced write, counted when refused |
| BurnRun.BurnRun.ProtectedAt | explode.h:270-270 | a traced zone question, counted when it denies |
| BurnRun.BurnRun.TypeAt | explode.h:341-347 | the block a client sees, one visit charged |
| BurnRun.BurnRun.LightBlock | explode.h:352-363 | lights a block once, decided whatever the answer |
| BurnRun.BurnRun.SampleCell | explode.h:268-297 | one sample of a blast refines its rule |
| BurnRun.BurnRun.FillOne | explode.h:366-375 | one cell of a fill refines its rule |
| BurnRun.BurnRun.RingOne | explode.h:414-425 | one corner cell of a fill refines its rule |
| BurnRun.BurnRun.LightOne | explode.h:427-430 | one cell of the lighting pass refines its rule |
| BurnRun.BurnRun.BlastSphere | explode.h:257-300 | the nested loops of a blast take its samples in the specified order |
| BurnRun.BurnRun.RunBlast | explode.h:244-300 | one blast of the worklist refines the specified blast |
| BurnRun.BurnRun.RunChain | explode.h:238-309 | the worklist refines the specified TNT chain |
| BurnRun.BurnRun.EachCell | explode.h:391-405 | the nested loops of a fill pass visit its cells in the specified order |
| BurnRun.BurnRun.MeasureBounds | explode.h:382-389 | how far a fill grows on each side |
| BurnRun.BurnRun.RunFill | explode.h:378-431 | the three passes of a fill refine the specified fill |
| BurnRun.BurnRun.RunFire | explode.h:437-451 | a fired link refines the specified one |
| BurnRun.BurnRun.RunExpansions | explode.h:318-327 | firing the queue refines the specified order and budget |
| BurnRun.BurnRun.RunExplode | explode.h:469-483 | the chain, then what it lit; a protected root never goes off |
| BurnRun.BurnRun.RunBurn | explode.h:496-513 | refines the specified burn, of which `BurnOutcome.BurnComesTo` says what becomes of each kind of root |
| FireSpread.SpreadFire | burn_guard.h:177-197 | uncut, the fire is exactly the set reachable through flammable blocks without leaving an expansion block, each at its shortest distance; the depth is the largest of them, and TNT is touched exactly when a burning block is TNT or its expansion |
| FireSpread.SpreadFrom | burn_guard.h:188-196 | the six neighbours of one burning block, each listed once and at most as many as the cap |
| FireSpread.Complete | burn_guard.h:183-197 | once every nearer block has passed the fire on, every block within that many spreads is listed |
| BurnGuard.BurnAction | server_posix.cpp:4956-4970 | the live burn does what the burn told of every zone would do, leaves every protected cell as it was, and comes to this: nothing at a protected, empty or air root, a TNT root emptied and a chain run, of an expansion root its material left, and any other block turned to air by its one write |
| BurnGuard.PreviewBurn | burn_guard.h:167-217 | the dry run leaves the base alone, its result is each burning block going in turn, it touches TNT when the fire, a blast or a write does, it says when it was cut short, and without overflow its cells name every cell the overlay differs on |
| BurnGuard.BurnFire | burn_guard.h:199-213 | the loop over the fire refines the specified burning down |
| BurnGuard.RestoreFire | burn_guard.h:180-194 | the cells to restore begin with the fire, the lit block first |
| BurnGuard.BurnBlock | burn_guard.h:199-213 | one burning block goes as specified, an explosive one only while the budget lasts |
| BurnGuard.BurnOut | burn_guard.h:198-217 | the whole fire goes, and the flags follow from what was written and what overflowed |
| BurnGuard.TypeAt | burn_guard.h:135-142 | the block a client sees in the overlay |
| BurnGuard.SetOff | burn_guard.h:202-208 | one explosive block is a burn of its own with the budget left, and its result is tallied |
| BurnGuard.PreviewAddsUp | burn_guard.h:198-217 | the preview adds up the burns the fire sets off: cells visited, blasts, the deepest chain, TNT touched, and whether one was cut short or left out |
| BurnGuard.QuietFire | burn_guard.h:199-213 | a fire that reaches nothing explosive turns exactly its blocks to air and runs no chain |
| RegionQuery.SnapChunk | region_query.h:77-83 | the low edge of the chunk a coordinate lies in, on either side of zero |
| RegionQuery.RegionBox | region_query.h:86-95 | the box covers the radius round its point and reaches less than a chunk further, whole chunks on every side |
| RegionQuery.CostIsRecords | eden_import.h:119-126 | the counted cost of a cell is the number of records it becomes |
| RegionQuery.RecordsSayCell | region_query.h:106-140 | a cell's records name that cell and tell a client its block and paint in either order, and never name the painted-base sentinel |
| RegionQuery.RecordsHere | region_query.h:106-140 | every record of a cell names that cell |
| RegionQuery.ScanTells | server_posix.cpp:2240-2247 | a client that takes in a scan knows at every position exactly the block and paint stored there if the box covers it, and nothing anywhere else |
| SnapzCodec.Encode | snapz_codec.h:129-156 | the base64 of the data, section 4 of RFC 4648, padding omitted |
| SnapzCodec.Decode | snapz_codec.h:163-189 | refines the character-by-character decoder with its 32-bit accumulator |
| SnapzCodec.Base64RoundTrip | snapz_codec.h:129-189 | the decoder undoes the encoder on every byte string |
| SnapzCodec.LeRoundTrip | snapz_codec.h:196-207 | little-endian 32-bit integers read back |
| SnapzCodec.PackRecords | snapz_codec.h:209-220 | a frame's records, five little-endian integers each |
| SnapzCodec.PackRoundTrip | snapz_codec.h:191-220 | unpacking gives the records back |
| SnapzCodec.LineRoundTrip | snapz_codec.h:222-236 | a client reads the count and exactly the records out of the wire line |
| RegionCache.ColumnGens.Bump | region_cache.h:72-73 | an edit stamps its column's slot with a new generation |
| RegionCache.ColumnGens.BumpAll | region_cache.h:75-77 | a reload makes everything newer |
| RegionCache.ColumnGens.NewestIn | region_cache.h:79-92 | the newest generation of every column the box covers, the folded sweep losing none |
| RegionCache.ColumnGens.UnchangedSince | region_cache.h:94-95 | whether no covered column is newer than the stamp |
| RegionCache.EvictValid | region_cache.h:238-243 | eviction keeps the shape, keeps entries as they were, and ends under the limit |
| RegionCache.EvictKeepsRecent | region_cache.h:238-243 | eviction keeps the most recently used and drops no more than it must |
| RegionCache.FindValid | region_cache.h:188-203 | a lookup keeps the cache in order and changes no entry |
| RegionCache.InsertValid | region_cache.h:205-222 | an insert keeps the list, the map, the byte sum and the cap in order |
| RegionCache.FindServes | region_cache.h:188-203 | a lookup serves an entry exactly when there is one and its box has not changed, makes it the most recently used, drops a stale one and leaves the others in order |
| RegionCache.InsertFiles | region_cache.h:205-222 | an insert files a reply exactly when it is not too big and newer than the one held, in front, dropping no more of the oldest than it takes to make room |
| RegionCache.ReplyCache.Erase | region_cache.h:233-237 | drops one entry and its bytes |
| RegionCache.ReplyCache.EvictTo | region_cache.h:238-243 | drops from the least recently used end, and counts how many |
| RegionCache.ReplyCache.SetMaxBytes | region_cache.h:186-186 | a new cap is met at once |
| RegionCache.ReplyCache.Find | region_cache.h:188-203 | serves an entry whose box has not changed since its stamp, drops a stale one, and counts which |
| RegionCache.ReplyCache.File | region_cache.h:214-221 | room is made, then the new entry goes first |
| RegionCache.ReplyCache.Insert | region_cache.h:205-222 | files a reply unless it is too big or no newer than the one held, and counts the insert, what made room, or the refusal |
| RegionCache.ReplyCache.Clear | region_cache.h:224-224 | forgets everything |
| OutQueue.TakeKeepsStream | out_queue.h:295-367 | an item and the slots left make up the stream it was taken from, a frame no larger than its job allows |
| OutQueue.HandBackKeepsStream | out_queue.h:369-400 | handing a frame back puts exactly its records in front again |
| OutQueue.StreamIsExact | out_queue.h:201-400 | over every run of pushes, takes, hand-backs and sends, what was delivered, held and is pending is what was accepted, in order; and regions never exceed the limit by more than one |
| OutQueue.PushedIs | out_queue.h:201-291 | a push adds a slot exactly when it says something and there is room, and the slot says just that |
| OutQueue.FrameDecodes | out_queue.h:140-160 | a client reads a frame's records, those the stream promised, from its line |
| OutQueue.ClientQueue.MakeRoom | out_queue.h:183-199 | drops the oldest lines and no more than it takes |
| OutQueue.ClientQueue.PushHi | out_queue.h:176-199 | the new line always goes in, what is dropped is counted |
| OutQueue.ClientQueue.PushWorld | out_queue.h:201-236 | refused only once the backlog is over budget, which is then remembered |
| OutQueue.ClientQueue.PushAnswer | out_queue.h:238-263 | accepted exactly when it fits the budget |
| OutQueue.ClientQueue.PushRegion | out_queue.h:265-278 | admitted exactly while fewer regions than the limit are in flight |
| OutQueue.ClientQueue.PushCachedRegion | out_queue.h:280-291 | the same admission for a cached reply |
| OutQueue.ClientQueue.Take | out_queue.h:295-367 | latency-sensitive lines first, then one turn of the world-state stream |
| OutQueue.ClientQueue.TakeTurn | out_queue.h:309-366 | one turn of the front of the stream |
| OutQueue.ClientQueue.TakeCachedFrame | out_queue.h:325-336 | the next frame of a cached reply |
| OutQueue.ClientQueue.SliceJob | out_queue.h:351-363 | the next frame of a job, its last one marked |
| OutQueue.ClientQueue.TakeJobFrame | out_queue.h:337-364 | a job's frame leaves, and the job with its last one |
| OutQueue.ClientQueue.RequeueFront | out_queue.h:369-400 | a frame that could not be encoded in time goes back where it was |
| OutQueue.ClientQueue.DropLo | out_queue.h:405-413 | a leaving client's pending world state is discarded |
| RegionService.HitIsFresh | server_posix.cpp:2240-2247 | a reply found in the cache is what a fresh scan and encode would give now |
| RegionService.BumpStales | server_posix.cpp:597-599 | an edit inside a box makes every earlier stamp of it stale |
| RegionService.ChangeKeeps | region_cache.h:40-62 | a change of the world that the generations cover keeps every entry, tag and fill right |
| RegionService.RequestKeeps | server_posix.cpp:2226-2256 | a request under the world lock, hit or scan, keeps the service right, and what it leaves to be queued is right for the box asked about |
| RegionService.WriteKeeps | server_posix.cpp:1863-1925 | sending an item, and filing a finished reply long after its scan, keeps the service right |
| RegionService.FrameFills | server_posix.cpp:1905-1922 | one more frame extends the reply being filed by exactly its records |
| RegionService.NextKeeps | server_posix.cpp:1792-1935 | every atomic step keeps the service right |
| RegionService.RunKeepsService | server_posix.cpp:1792-1935 | so does every run |
| RegionService.CacheIsExact | region_cache.h:1-62 | in every interleaving of edits, reloads, scans, late inserts, evictions and lookups a served reply is frame for frame what a fresh scan and encode would give, and the cache stays within its bytes |
| RegionAnswers.ReadReply | snapz_codec.h:222-236 | a whole reply reads as the records it was encoded from |
| RegionAnswers.ScanInforms | region_query.h:86-140 | from a scan of the box round a place a client knows every stored cell within the radius as it is, and nothing a chunk past it |
| RegionAnswers.RequestIsAnswered | server_posix.cpp:2200-2300 | in every run a request taken up leaves an answer that reads as the scan of the box round the place asked about in the world of that moment, cached or not |
| RegionAnswers.StepsAreActs | server_posix.cpp:1792-1935 | each step moves its client's stream just as the output queue does |
| RegionAnswers.StepsKeepOthers | server_posix.cpp:1792-1935 | and touches no other client |
| RegionAnswers.EditIsStored | server_posix.cpp:573-603 | an edit is what the next scan sees, unless it is off the map or the world is full |
| RegionAnswers.ReplyIsFiled | server_posix.cpp:1905-1925 | the last frame of a reply sent whole files every frame of it, under the box and generation of its scan |
| WorstRegion.Sort | eden_import.h:196-200 | the tiles in order, each kept |
| WorstRegion.LowerBound | eden_import.h:220-221 | where the columns of a window begin and end in the sorted list |
| WorstRegion.DistinctX | eden_import.h:208-211 | the populated columns, each once |
| WorstRegion.Sweep | eden_import.h:214-232 | the heaviest window on one low edge, by two pointers |
| WorstRegion.SweepColumn | eden_import.h:217-237 | every window that starts on one column, over the tiles its columns span |
| WorstRegion.Pruning | eden_import.h:180-193 | some window with populated low edges weighs as much as any given one |
| WorstRegion.FindWorst | eden_import.h:194-240 | the true maximum over every chunk-aligned window, named by a window of that weight |
| WorstRegion.SideFits | eden_import.h:200-206 | the swept windows are as wide as every reply exactly when the radius is at most half a chunk past whole chunks |
| WorstRegion.BoxInWindow | eden_import.h:200-206 | every cell of a reply's box lies in its window of columns |
| WorstRegion.ReplyBounded | eden_import.h:176-193 | a reply has no more records than its window weighs |
| WorstRegion.Project | eden_import.h:244-285 | counts cells and records, and no player anywhere can be sent more records than the worst it names |
| WorstRegion.CountColumns | eden_import.h:249-279 | cells and records counted chunk by chunk, chunks that cost nothing left out |
| WorstRegion.ChunkRecords | eden_import.h:250-256 | the records of one chunk's kept cells |
| EdenExport.VersionTells | eden_export.h:297-311 | the version written always tells a reader the height, and a replayed one is changed only where it would lie |
| EdenExport.SignsToFile | eden_export.h:357-371 | the signs the file can say, in order, up to its limit; the rest are counted |
| EdenExport.ChunkSet | eden_export.h:464-480 | the chunks that hold a cell in range, ascending, and where every other cell was turned away |
| EdenExport.InsertKey | eden_export.h:476-498 | a chunk joins the ascending list once |
| EdenExport.CountsAre | eden_export.h:464-480 | cells kept and dropped add up to the store, each counted for its reason |
| EdenExport.CeilingDecides | eden_export.h:222-246 | the short format is chosen when it is forced, or when the tall one is neither forced nor preferred and no cell and no sign stands above it |
| EdenExport.NothingCut | eden_export.h:222-246 | unless the short format is forced no cell within the height of the world is cut off |
| EdenExport.ChooseCeiling | eden_export.h:222-246 | the choice of the height, one cell and one sign at a time |
| EdenExport.MakeBaseChunk | eden_export.h:427-446 | a chunk of base terrain, byte for byte |
| EdenExport.IndexApart | eden_export.h:566-585 | different positions have different bytes and no type byte is a paint byte |
| EdenExport.Overlay | eden_export.h:566-585 | after the second pass every voxel is its cell's, or base terrain |
| EdenExport.WriteBody | eden_export.h:525-585 | header, base chunks and overlaid cells |
| EdenExport.WriteDirectory | eden_export.h:587-600 | the directory rows of the chunks |
| EdenExport.ChooseChunks | eden_export.h:464-498 | the chunks to write, an empty world getting one at its anchor |
| EdenExport.Export | eden_export.h:447-604 | the file holds the header, every voxel, the directory and the signs, within the size cap, and the counts are those of the cells left out: unless the short format is forced, none for its height but cells outside 0 to 255 |
| EdenFile.DecodeDirectory | eden_file.h:271-293 | every whole row up to the cap, and whether there were more |
| EdenFile.GateRows | eden_file.h:457-478 | rows past the last gated one are the trailer, ungated ones before it are dropped |
| EdenFile.SortedUnique | eden_file.h:328-333 | offsets ascending, each once |
| EdenFile.MaxOffset | eden_file.h:298-306 | the largest offset that could address chunk data |
| EdenFile.KeepRows | eden_file.h:485-494 | the rows whose data fits, however large their offsets |
| EdenFile.UpperBound | eden_file.h:502-503 | the first start past an offset |
| EdenFile.DetectChunkSize | eden_file.h:296-345 | the chunk size from the creature gap, else from the closest offsets |
| EdenFile.MeasureGaps | eden_file.h:323-345 | closest neighbours in the sorted list decide as closest pairs do |
| EdenFile.MakeChunks | eden_file.h:496-508 | each chunk ends at the next start, the directory, or its own size |
| EdenFile.ParseWorld | eden_file.h:444-512 | what a file's bytes load as |
| EdenFile.LoadWorld | eden_file.h:444-512 | the same, unwrapped first when it is a zip |
| EdenFile.SpansHold | eden_file.h:485-508 | for every file accepted, spans are not empty, at most a chunk long, between header and directory, and apart when their offsets differ |
| EdenFile.ChunksAre | eden_file.h:457-508 | for every file accepted, its chunks are exactly the directory rows whose coordinates and data fit, each as long as its size but where the directory or another chunk begins |
| EdenFile.SizeFromGap | eden_file.h:296-322 | whole creature slots after the last chunk give the chunk size away |
| EdenFile.LaidOut | eden_file.h:410-426 | the types of a band lie one after the other, up a column, along the rows, across them, and the next band begins after as many paints |
| EdenFile.ReadsStayInside | eden_file.h:427-437 | a voxel's bytes come from its own chunk's span and nowhere else |
| EdenImport.ScanChunk | eden_import.h:142-157 | a chunk's kept voxels, and nothing else, are put on top |
| EdenImport.ScanVoxel | eden_import.h:142-157 | one voxel of a chunk, kept or not |
| EdenImport.ScanWorld | eden_import.h:158-163 | the store holds exactly the kept voxels of every chunk, the later chunk's where two share a place |
| EdenImport.FillShows | eden_import.h:128-163 | where one chunk has a position a client shows just what the file says there, under a full import or one of what differs, which stores no cell the terrain says already; one of blocks alone leaves the terrain where the file has air |
| EdenRoundTrip.HeaderReads | eden_file.h:240-260 | every header field written is read back |
| EdenRoundTrip.SizeFound | eden_file.h:296-345 | the loader detects the chunk size that was written, whatever version was replayed |
| EdenRoundTrip.ChunksFound | eden_file.h:485-508 | the loader finds exactly the chunks written, each with its whole span |
| EdenRoundTrip.FileReads | eden_file.h:444-512 | a written file loads as its header, its chunks and its signs |
| EdenRoundTrip.SeedDecides | eden_file.h:123-128 | a written file is taken for a zip exactly when its seed is one of three |
| EdenRoundTrip.WrapReads | eden_export.h:376-425 | a zipped export loads as the file inside |
| EdenRoundTrip.VoxelReads | eden_file.h:419-437 | the voxel read at a position of a written chunk is the one the writer meant |
| EdenRoundTrip.ScanFinds | eden_import.h:128-157 | a diff scan finds exactly the voxels that differ from base terrain |
| EdenRoundTrip.RoundTrip | eden_export.h:1-45 | export, load and diff scan keep the block and paint of every cell in range, and give the same store back exactly when it was in normal form and in range |
| EdenRoundTrip.NormalIs | eden_export.h:160-200 | a store is in normal form exactly when a file says of each cell what the store does, and each says something the terrain does not |
| EdenRoundTrip.DefaultIsRoomy | eden_export.h:105-105 | a file within the default size cap never has more rows than a reader takes |
| EdenRoundTrip.WrittenReads | eden_file.h:271-293 | a written file loads as just what was written exactly when its chunks and sign rows fit the reader's directory cap |
| EdenRoundTrip.SaveAndLoad | eden_export.h:447-604 | writing, loading and scanning in one go, with nothing assumed of the file between: the block and paint of every cell in range come back, and the same store exactly when it is in normal form and in range, which unless the short format is forced is the whole height of the world |
| EdenSigns.BuildBody | eden_export.h:315-333 | the SGN1 body of the records |
| EdenSigns.ParseBody | eden_file.h:353-378 | reads whole records, at most the limit |
| EdenSigns.BodyRoundTrip | eden_export.h:315-333 | the body gives back exactly the records it was built from, even inside a longer string |
| EdenSigns.BuildTrailer | eden_export.h:335-355 | the body in tagged directory rows |
| EdenSigns.PadRows | eden_export.h:344-348 | zero bytes up to whole rows |
| EdenSigns.MakeRows | eden_export.h:348-354 | twelve payload bytes to a tagged row |
| EdenSigns.StripRows | eden_file.h:389-400 | the payload of tagged rows, or none if one is foreign |
| EdenSigns.ParseInline | eden_file.h:383-406 | reads the rows after the directory, wrapped or bare |
| EdenSigns.TrailerRoundTrip | eden_file.h:383-406 | for one to the most signs a file may hold the trailer gives them back and fits the reader's room |
| EdenSigns.RowsTagged | eden_export.h:335-355 | every row of the trailer is one no chunk is read from |
| EdenSignTrip.ConvertSigns | eden_import.h:334-344 | the signs the world has a place for, in order; the rest are counted |
| EdenSignTrip.OneSign | eden_export.h:207-221 | a sign goes into the file exactly when the file has a place for it, and reads back with its text cut |
| EdenSignTrip.SignsTrip | eden_export.h:315-371 | the server's signs come back from either container, in order, texts cut to the field |
| EdenSignTrip.NothingLost | eden_import.h:308-322 | the list comes back unchanged exactly when every sign has a place and no text is too long |
| EdenZip.UnzipWorld | eden_file.h:160-236 | the first world file of the directory, or why there is none |
| EdenZip.ScanEnd | eden_file.h:172-182 | refines the search for the end record that `EdenZip.EndIs` describes |
| EdenZip.ScanMembers | eden_file.h:186-212 | refines the search of the directory that `EdenZip.MemberIs` describes |
| EdenZip.EndIs | eden_file.h:172-182 | the end record is the last one between the end of the file and one byte further back than the longest comment could push it |
| EdenZip.MemberIs | eden_file.h:186-212 | the member is the first wanted one of the directory whatever stands before it, and there is none exactly when no entry that can be reached is wanted |
| EdenZip.ExtractIs | eden_file.h:213-236 | a member comes out exactly when its own header is where the directory says, its bytes lie in the file and it is within the cap, stored as it stands or deflated as it inflates |
| EdenZip.ZipRoundTrip | eden_export.h:376-425 | what was zipped under a world file's name is what is unzipped, within the cap |
| Auth.Sha256.Update | auth.h:76-90 | in any state, the object then stands for the message and the new bytes |
| Auth.Sha256.TopUp | auth.h:80-87 | a part-filled buffer is topped up and absorbed when full |
| Auth.Sha256.Absorb | auth.h:88-89 | whole blocks straight from the data, then the rest is kept |
| Auth.Sha256.Marked | auth.h:97-97 | zero bytes until the length field ends on a block |
| Auth.Sha256.Final | auth.h:91-108 | the digest of the whole message with the padding of section 5.1.1 of FIPS 180-4 |
| Auth.PadEnds | auth.h:94-101 | the padding loop stops at the fewest zero bytes that end the length on a block |
| Auth.DigestOfParts | auth.h:62-157 | however a message is split into updates, the digest is that of the whole |
| Auth.NothingWraps | auth.h:91-108 | within the sizes the standards allow neither the length field nor a block index wraps |
| Auth.HmacSha256.Mac | auth.h:163-195 | section 2 of RFC 2104, also when the output is the message's own buffer |
| Auth.HmacSha256.constructor | auth.h:165-181 | the two pads are absorbed once, a long key hashed first |
| Auth.Rehash | auth.h:220-220 | a digest keyed over itself, in place |
| Auth.Pbkdf2 | auth.h:205-227 | section 5.2 of RFC 8018, an iteration count of zero taken as one |
| Auth.OneBlock | auth.h:205-227 | one block of the key, each digest overwriting the last in place |
| Auth.XorInto | auth.h:216-222 | one array exclusive-ored into another |
| AuthFile.ToHex | auth.h:231-237 | two hex digits a byte |
| AuthFile.FromHex | auth.h:239-258 | refines the reading of hex that `AuthFile.UnhexDecides` describes |
| AuthFile.HexRoundTrip | auth.h:231-258 | hex reads back |
| AuthFile.UnhexDecides | auth.h:239-258 | text is hex exactly when it has an even number of hex digits in either case, and what was read, written again, is that text in lower case |
| AuthFile.ParseAuthLine | auth.h:347-371 | one record, or the first thing wrong with its line |
| AuthFile.SplitLine | auth.h:352-355 | the fields between colons |
| AuthFile.LineRoundTrip | auth.h:342-371 | what is written for a name reads back as that name's record |
| AuthFile.PinFile.LoadFile | auth.h:393-421 | all of a file or nothing, with the line at fault |
| AuthFile.PinFile.TrimLine | auth.h:400-402 | a line without the blanks at its ends |
| AuthFile.PinFile.Serialize | auth.h:423-430 | the comments, then one line a name |
| AuthFile.FileRoundTrip | auth.h:393-430 | a save reads back as exactly the names that do not begin with a hash sign |
| AuthFile.LoadGood | auth.h:347-371 | every record a file loads as is one a save can write, within its sizes |
| AuthFile.FaultRefuses | auth.h:393-421 | the first line at fault after a saved file refuses the whole of it under its number, one that does not parse for its reason, a name used before as a duplicate |
| Matchmaker.AddDecides | matchmaker.h:498-539 | which answer a registration gets, from the rows alone; a refused one changes nothing |
| Matchmaker.AddLists | matchmaker.h:498-539 | a listed registration is at its address under its connection, heard from now, with the players of the row it replaces; another connection it displaces is named, had the same peer and owns no row now |
| Matchmaker.AddFrame | matchmaker.h:498-539 | rows of other addresses and connections stay as they are |
| Matchmaker.RunKeeps | matchmaker.h:475-646 | over every interleaving there is one row per address, one per connection, and no more than the registry holds |
| Matchmaker.RowsLeaveOnly | matchmaker.h:555-616 | an address leaves the list only when its connection closes or moves, or a sweep saw it stale and its probe failed; a live row keeps its owner otherwise |
| Matchmaker.SweepDrops | matchmaker.h:599-616 | a sweep that ends drops exactly the rows at addresses its first phase saw stale and its probe failed on, however fresh they are by then; those whose probe worked are fresh, the others as they were |
| Matchmaker.HeardStays | matchmaker.h:475-646 | over every run in which a listed server stays up and is heard from in time its row stays, just as its own heartbeats and player counts have made it, whatever others, sweeps and probes do |
| Matchmaker.SweepNames | matchmaker.h:599-616 | the connections a sweep names for closing are exactly those of the rows it drops |
| Matchmaker.CloseTakes | matchmaker.h:555-561 | a connection that closes takes its own rows off the list and no others |
| Matchmaker.DropLeaves | matchmaker.h:563-577 | a connection that drops leaves its row listed, owned by nobody |
| Matchmaker.FreshDropped | matchmaker.h:585-616 | a server that registers again during the failing probe of its address is listed fresh and dropped all the same |
| Matchmaker.LoadOk | matchmaker.h:622-631 | a reloaded registry is in order exactly when the part that fits has distinct addresses |
| Matchmaker.Registry.Add | matchmaker.h:498-539 | refines the specified registration, displaced connection included |
| Matchmaker.Registry.Touch | matchmaker.h:541-547 | the rows of a connection are fresh |
| Matchmaker.Registry.SetPlayers | matchmaker.h:549-553 | the player count of a connection's row |
| Matchmaker.Registry.Remove | matchmaker.h:555-561 | a closed connection's rows go |
| Matchmaker.Registry.Orphan | matchmaker.h:563-577 | a dropped connection's row stays, owned by nobody |
| Matchmaker.Registry.FindStale | matchmaker.h:585-593 | the first, locked phase of a sweep |
| Matchmaker.Registry.Apply | matchmaker.h:599-616 | the second, locked phase: answered rows fresh, the others dropped, their connections named |
| Matchmaker.Registry.Sort | matchmaker.h:594-598 | between the phases each stale address is asked once |
| Matchmaker.Registry.LoadStale | matchmaker.h:622-631 | rows from disk come back without a connection and stale |
| DurableWrite.WriteFileGood | durable_write.h:88-138 | at every point, whatever the system answered, the target can only come back with contents it might have had or the new ones in full, and the outcome says which |
| DurableWrite.NeverPartial | durable_write.h:1-35 | over every run of writes and power losses the target only ever holds the whole of something saved, or what it might have held at the start |
| DurableWrite.WriteBytesGood | durable_write.h:108-116 | the same however the bytes go out, in pieces and with interruptions |
| DurableWrite.SaveWorks | durable_write.h:88-138 | when every call up to the rename goes well, pieces and interruptions aside, the new contents are in place, and there for good once the directory is synced; the outcome says which |
| DurableWrite.ErrorFails | durable_write.h:88-138 | an error of any call up to the rename fails the write and leaves no temporary file if the system lets it go |
| DurableWrite.CrashKeeps | durable_write.h:1-35 | a power loss leaves nothing that might not have been there |
| DurableWrite.FileSystem.WriteFileDurable | durable_write.h:88-138 | refines the specified sequence of effects |
| DurableWrite.FileSystem.WriteAll | durable_write.h:108-116 | the write loop, partial writes and interruptions included |
| DurableWrite.FileSystem.Commit | durable_write.h:118-137 | sync, close, rename, then the directory |
| DurableWrite.FileSystem.Fail | durable_write.h:101-106 | the end of a failed write, of which `DurableWrite.ErrorFails` says that it takes its temporary file away |
| DurableWrite.FileSystem.SyncDirectory | durable_write.h:57-72 | the directory sync, an unsupported one not an error |
| Usernames.ValidateUsername | hardening.h:97-117 | which names are allowed, and why not |
| Usernames.CandidateAllowed | hardening.h:119-139 | a suffixed name is an allowed name |
| Usernames.CandidatesDiffer | hardening.h:119-139 | different suffixes give different names |
| Usernames.CandidateKeeps | hardening.h:119-139 | a suffixed name keeps as much of the wanted one as leaves room for a dash and the number, all but spaces at the cut |
| Usernames.NextFree | hardening.h:124-139 | ends for every roster that leaves one of the counter's numbers free, its wrap-around included, with the wanted name or the first free suffix |
| Usernames.FewLeaveFree | hardening.h:124-139 | fewer names than the counter has numbers always leave one free |
| Usernames.FirstIsLowest | hardening.h:119-139 | the first free suffix is the lowest free one from 2 on, whenever there is one |
| Usernames.RosterRuns | server_posix.cpp:5198-5232 | over every run of joins, evictions and departures the names are allowed and distinct, and a session keeps its name until it leaves, joins anew, or is the silent session of the player who joins |
| Usernames.JoinNames | hardening.h:140-156 | a join gets its wanted name exactly when every session that had it was from the same address and silent for long enough, and just those go; else it gets the first free suffix |
| Usernames.Clients.Join | server_posix.cpp:5198-5232 | a join takes over its own dead session or gets the next free name; names stay allowed and distinct |
| Usernames.Clients.EvictStale | server_posix.cpp:5205-5225 | takes out exactly the same player's silent sessions |
| Usernames.Clients.Taken | server_posix.cpp:5201-5208 | the names in use, and the session that has the wanted one |
| Usernames.Clients.Remove | server_posix.cpp:2399-2403 | a departure takes its own entry out |
| Limits.TokenBucket.AdmitRegion | hardening.h:386-393 | refines the specified admission, of which `Limits.AdmitDecides` and `Limits.NeverLockedOut` say when it is given |
| Limits.TokenBucket.Charge | hardening.h:354-359 | spends into debt of one burst at most |
| Limits.TokenBucket.Allow | hardening.h:339-347 | spends when there is enough, else nothing |
| Limits.TokenBucket.Refill | hardening.h:361-371 | refines what time adds, up to one burst |
| Limits.BudgetHolds | hardening.h:380-393 | any stretch of a run admits at most two bursts and what the rate adds |
| Limits.AdmitDecides | hardening.h:339-393 | a reply of at most one burst is admitted exactly when the tokens held and what time brought, one burst at most, cover it, a larger one exactly when the bucket is full; and what each leaves |
| Limits.RefusalsCostNothing | hardening.h:339-393 | however often a client is refused, it may spend as much afterwards as if it had not asked |
| Limits.NeverLockedOut | hardening.h:349-393 | once time has brought two bursts the next reply is admitted however large, whatever was refused on the way |
| Limits.ConnectLimiter.Allow | hardening.h:409-422 | admits exactly when fewer than the limit were admitted in the window; a full table lets a new address through uncounted |
| Limits.ConnectLimiter.Holds | hardening.h:395-446 | no interval of the window's length holds more counted connects of an address than the limit, sweeps included |
| Limits.ConnectLimiter.Sweep | hardening.h:427-433 | forgets only addresses with nothing left in the window |
| Limits.WindowHolds | hardening.h:404-446 | no window holds more admitted connects than the limit, wherever it starts |
| SignStore.ParseSignLine | sign_store.h:90-131 | a sign, a line to skip, or a malformed one |
| SignStore.LineRoundTrip | sign_store.h:90-153 | what is written for a sign reads back as that sign, on one line |
| SignStore.FileRoundTrip | server_posix.cpp:1229-1263 | loading what was saved gives the list back |
| SignStore.OtherLinePassed | server_posix.cpp:1229-1263 | a line in a file that holds no sign is passed over, and the signs before and after it load as if it were not there |
| SignStore.AnyLineReads | sign_store.h:90-153 | whatever the text of a sign, its line is one line and reads back as that sign with its text cleaned |
| SignStore.SanitizeIs | hardening.h:58-68 | what is kept of a text is its first printable characters, however many others lie between |
| SignStore.UpsertSign | sign_store.h:179-201 | the slot holds exactly the new sign where its first one stood, every other slot what it held, and a full list refuses only a new slot |
| SignStore.SanitizeText | hardening.h:58-68 | refines the cleaning of a text that `SignStore.SanitizeIs` describes |
| SignStore.Prune | sign_store.h:204-220 | splits the list, both parts in order |
| SignBoard.Board.PlayerWrite | server_posix.cpp:4526-4570 | a line that is not a player's sign changes nothing; a sign on a protected block is not stored and the slot's signs are sent back; any other goes through the one door |
| SignBoard.Board.Write | server_posix.cpp:3210-3235 | the slot, the index, the burst and the dirty flag after a write |
| SignBoard.Board.RemoveAt | server_posix.cpp:3237-3250 | every sign off one block |
| SignBoard.Board.PruneOrphans | server_posix.cpp:1355-1376 | signs on blocks stored as air go, those on untouched terrain stay |
| SignBoard.Board.RemoveOnBlock | server_posix.cpp:1291-1306 | the block's signs go in order to the log, the others stay in order, its key leaves the index, the burst is marked stale |
| SignBoard.Board.WorldSet | server_posix.cpp:573-603 | which writes are stored, that air takes the block's signs, and exactly when a cell that reads as air still has some |
| SignBoard.Board.Serve | server_posix.cpp:2115-2150 | a request is answered with the list as it is now |
| SignBoard.Board.Drain | server_posix.cpp:1319-1337 | hands the removals out once and brings the burst up to date |
| SignBoard.Board.SaveBegin | server_posix.cpp:1340-1350 | takes the flag down and a snapshot, only when the list changed |
| SignBoard.Board.SaveEnd | server_posix.cpp:1351-1353 | puts the snapshot on disk, or the flag back up |
| SignRuns.NextSound | server_posix.cpp:1195-1353 | every locked section keeps the index exactly the signed blocks, the burst the list unless marked stale, and the sidecar or the save on its way the list unless marked dirty |
| SignRuns.SidecarFollows | server_posix.cpp:1340-1353 | over every run from a loaded sidecar, failed saves and changes during a save included, the sidecar loads as the whole list of the moment the last save that worked began, and as the list itself whenever nothing is due and no save runs |
| SignRuns.AirTakesSigns | server_posix.cpp:1283-1306 | storing air takes exactly the block's signs, the others in order, and keeps them for the log |
| SignRuns.BurstTells | sign_store.h:132-150 | a client hears every sign of the list once, in order, each on a line of its own whatever its text |
| SignRuns.PlayerLineReads | sign_store.h:157-164 | a player's line says a sign behind its own prefix, and a line of the server sent back says none |
| SignRuns.SaveReaches | server_posix.cpp:1340-1353 | a save that works puts the whole list in the sidecar and leaves nothing due, one that fails changes nothing and leaves it due |
| Topmap.FedSums | topmap.h:118-130 | one more cell of a new height keeps a column's summary right, whatever the order |
| Topmap.TopsAreSurface | topmap.h:132-150 | the higher of the stored top and the base top is the surface |
| Topmap.Grid.Feed | topmap.h:118-130 | a cell outside the grid is ignored |
| Topmap.Grid.ColumnToken | topmap.h:132-150 | the token of a column is that of its stored cells, however they came; `Topmap.TokenTells` says what a reader learns from it |
| Topmap.TokenTells | topmap.h:132-150 | a reader of a token learns whether anything is stored in the column, whether anything stands there, and if so the surface a player sees and its block |
| Sight.OneSight | topmap.h:112-150 | the burn, the fire, the height map, a region reply and a world file all take a cell for the same block, and a file keeps its paint but where the block is air |
| Topmap.FindBase | topmap.h:136-142 | the highest base block no stored cell overrides |
| Topmap.Parse | topmap.h:69-104 | a request, or which field is wrong |
| Topmap.Plan | topmap.h:82-104 | samples cover both corners, and a refusal names them and the least step that fits |
| Topmap.LeastStep | topmap.h:92-101 | exactly the steps from it on would fit |
| Topmap.Groups | topmap.h:188-200 | consecutive samples grouped by chunk, each group in a later chunk |
| Topmap.MakeBatch | topmap.h:204-208 | every pair of a row group and a column group, each once |
| Topmap.Walk | topmap.h:170-211 | every sample is handed out once, in its own chunk column, each column at most once |

## Left out

- Sockets, threads, accept loops, signals, argument parsing and log text; each lock-protected section is one step.
- The arithmetic inside the SHA-256 block function, deflate, inflate and the zip checksum: parameters. Nothing is claimed about their strength.
- Floats in a world file's header are kept as their bytes; `eden_origin.txt`, spawn, MOTD, ban and op files are not modelled.
- The world save, whose dirty flag is not held across snapshot and write, and log folding, whose counts are not exact.
- `control.h`, `save_sched.h`, `eden_names.h`, `motd_store.h`, `spawn_store.h`, `LruTable`, `ConnCaps` and the failure limiter: small properties only.
- `world_store.h`, `zones.h` and `zone_guard.h` are not part of this model beyond a map of cells, a list of boxes with a level each, and a capped list of cells.
- The order a scan emits chunks in, the count of painted base shown as air, and the text of error messages.
- BurnRun.BurnRun.RunChain: the links one blast found are a field of the object here, a local vector in the server.
- BurnGuard.PreviewBurn: requires terrain that does not burn under the base world, as the server's natural terrain; over terrain that burns, cells a whole world apart would share a key.
- BurnGuard.BurnAction: the signs an emptied block loses are not in its contract; `BurnSigns.BurnTakesSigns` is about them.
- OutQueue.ClientQueue.PushRegion: requires a job pushed fresh, its cursor at the start, as every producer pushes it.
- OutQueue.StreamIsExact: one writer, limits that stay fixed, and no discarding of the pending stream.
- EdenRoundTrip.RoundTrip: requires a trailer the reader has room for; `EdenRoundTrip.WrittenReads` says which files have one, and `EdenRoundTrip.SaveAndLoad` assumes nothing of the file.
- EdenImport.ScanWorld: takes the chunks as they stand in the file; the importer sorts them by place first, which matters only where two share one, and there its sort leaves their order open.
- EdenZip.ZipRoundTrip: sizes within the 32-bit fields of the format, and inflate taken to undo deflate on this data.
- AuthFile.PinFile.Serialize: the comment lines at the head and the order of the names are parameters.
- Auth.HmacSha256.Mac: the digest object's own buffers cannot be the output, which no caller can reach in the server.
- DurableWrite.WriteFileGood: no other name links the temporary file, and unsynced contents may come back as anything.
- Limits.ConnectLimiter.Holds: counts the connects the limiter counted; a full table lets a new address through uncounted, as the server means it to.
- Matchmaker.Registry.Apply: closing the connections it names is the caller's, after the lock.
- Topmap.Parse: fields without NUL characters, which the C parser would stop at.
- RegionQuery.ScanTells: how a client takes in a record is as the server's comments describe it; the client itself is not part of this model.
- WorstRegion.Project: the bounding box and the counts of odd types, paints and reserved ids are left out, as running sums with nothing to prove beyond themselves.
- Topmap.Grid.ColumnToken: a column fed no height twice, as the store holds each cell once.
