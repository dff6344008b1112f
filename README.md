# Voxel chunk generator and mesher, modelled in Dafny

This project models the discrete core of a Unity voxel chunk pipeline, written in C#.

- **Generator.** A chunk generator builds a registry of block kinds. It then computes a height map from noise and lays the configured layer stack in every column, top-down. On the way it seeds ore clusters; then, for each unit an ore lacks of its minimum quota, it makes up to 100 random draws for a cell of the ore's layer to replace. It optionally carves caves, and it places structure templates on their foundations.
- **Mesher.** A mesher turns the block grid into one vertex buffer plus one triangle list per registry entry. It emits a face only where the neighbouring cell does not hide it.
- **Supporting pieces.** These are the block health and damage rules, the structure template's index arithmetic, the serializable vector, and the integer part of a damage hit on a chunk.

The grid is an `array3<Block?>` indexed `[x, z, y]`, as in the source. Its extents are width, length and height (the chunk's maximum height). Blocks are objects whose health changes in place. Block kinds, layers, ores and structure rules are values. The registry, the ore counters and the ore veins are values that the passes thread through.

Noise and the camera are inputs:
- `rounded[x, z]` is a column's scaled and rounded height noise;
- `hollow(x, z, y)` says whether the cave noise clears the threshold;
- `facing(n)` says whether direction `n` faces the camera.

Random draws are nondeterministic choices inside their documented ranges, so every proved property holds for every outcome.

Reproduced as written:
- **Axis order.** The grid is indexed `[x, z, y]`, and structure coordinates are recorded as (column x, column z, base height).
- **Trial cut-off.** The structure trial loop compares its attempt counter with the shrinking candidate list, so at most about half the columns are ever tried (`Placement.PlaceStructure`).
- **Ore depth clamp.** An ore draw's height is clamped into the top `thickness` cells of the drawn column, using the current layer's thickness measured from the surface.
- **Foundation probe cell.** The foundation pass reads matrix entry `x + sx * z`. That is template cell (x, z, 0), not (x, 0, z), unless the template is one cell tall (`Structures.FoundationProbeCell`).
- **Foundation overwrite asymmetry.** The foundation's layer walk fills only empty cells. The tail below the stack overwrites every cell with the last layer's block.
- **Culling flag.** Mesh culling reads the transparency of the block's kind (`Config.isTransparent`), not the block's own `IsTransparent` field.
- **Ore transparency.** Ores seeded during the layer pass take their kind's transparency. Backfilled ores are always opaque.

## Model

| member | source | states |
|---|---|---|
| Vectors.SerializableVector3Int.Empty | ChunkGenerator/Script/SerializableVector3Int.cs:10 | the parameterless constructor leaves all three components at zero |
| Vectors.SerializableVector3Int.constructor | ChunkGenerator/Script/SerializableVector3Int.cs:12-15 | the constructor stores x, y and z exactly |
| Vectors.SerializableVector3Int.ToVector3Int | ChunkGenerator/Script/SerializableVector3Int.cs:17 | the conversion returns the same three components |
| Vectors.SerializableVector3Int.FromVector3Int | ChunkGenerator/Script/SerializableVector3Int.cs:18-23 | all three fields are overwritten with v's components, so converting back yields v |
| Vectors.RoundTrip | ChunkGenerator/Script/SerializableVector3Int.cs:17-23 | storing v and converting back returns v, whatever the object held before |
| Blocks.HitHealth | ChunkGenerator/Script/Blocks/Block.cs:20 | health after a hit is never negative; it is zero exactly when the damage reaches the health, and otherwise it is health minus damage |
| Blocks.Block.IsDestroyed | ChunkGenerator/Script/Blocks/Block.cs:7 | a block is destroyed exactly when a hit of no damage would leave it at zero health, i.e. its health is not positive |
| Blocks.Block.constructor | ChunkGenerator/Script/Blocks/Block.cs:10-16 | a new block starts at its kind's strength and keeps the given layer index, kind and transparency flag |
| Blocks.Block.Hit | ChunkGenerator/Script/Blocks/Block.cs:18-21 | only the health changes, to max(0, health - damage); with damage >= 0 a destroyed block stays destroyed and health never rises |
| Blocks.ProgressNeverRises | ChunkGenerator/Script/Blocks/Block.cs:20 | with positive strength and damage >= 0, the health / strength progress the mesh draws never rises after a hit |
| Structures.FlatIndexInRange | ChunkGenerator/Script/Structures/StructureConfig.cs:15 | for in-range coordinates the flat index x + sx*(y + sy*z) lies in [0, sx*sy*sz) |
| Structures.FlatIndexInjective | ChunkGenerator/Script/Structures/StructureConfig.cs:15 | two in-range coordinates with the same flat index are the same coordinates |
| Structures.FoundationProbeCell | ChunkGenerator/Script/Chunk/PerlinChunkGenerator.cs:291 | the foundation probe x + sx*z is the index of template cell (x, z, 0); it is the index of (x, 0, z) only when sy = 1, z = 0 or sx = 0 |
| Structures.StructureConfig.constructor | ChunkGenerator/Script/Structures/StructureConfig.cs:6-10 | the object holds the given raw size, raw anchor, matrix, block list and flag |
| Structures.StructureConfig.Size | ChunkGenerator/Script/Structures/StructureConfig.cs:12 | the size is a component-wise copy of the raw size |
| Structures.StructureConfig.Anchor | ChunkGenerator/Script/Structures/StructureConfig.cs:13 | the anchor is a component-wise copy of the raw anchor |
| Structures.StructureConfig.GetIndex | ChunkGenerator/Script/Structures/StructureConfig.cs:15 | the flat index of an in-range cell lies in [0, sx*sy*sz) |
| Structures.StructureConfig.GetValue | ChunkGenerator/Script/Structures/StructureConfig.cs:16 | the value read for a cell is one of the stored matrix entries; SetValue's contract gives the write-then-read round trip |
| Structures.StructureConfig.SetValue | ChunkGenerator/Script/Structures/StructureConfig.cs:16-17 | after setting (x, y, z) to v, reading (x, y, z) gives v, and every other in-range cell keeps its value |
| Structures.StructureConfig.Snapshot | ChunkGenerator/Script/Structures/StructureConfig.cs:12-16 | the value view the generator reads has the same size, anchor and matrix, and agrees with GetValue on every readable cell |
| ChunkConfigs.DepthMonotone | ChunkGenerator/Script/Chunk/PerlinChunkGenerator.cs:122-129 | the depth at which a layer starts never decreases down the stack |
| ChunkConfigs.StratumAt | ChunkGenerator/Script/Chunk/PerlinChunkGenerator.cs:121-129 | a depth below the surface belongs to exactly the layer whose depth interval contains it, and to none when it is negative or below the whole stack |
| ChunkConfigs.StratumOfDepth | ChunkGenerator/Script/Chunk/PerlinChunkGenerator.cs:121-129 | every depth inside layer i's interval is attributed to layer i |
| ChunkConfigs.RuleForIff | ChunkGenerator/Script/Chunk/PerlinChunkGenerator.cs:115-117 | a layer has a rule for kind c exactly when one of its ores names c |
| ChunkConfigs.PlacesOreIff | ChunkGenerator/Script/Chunk/PerlinChunkGenerator.cs:115-117 | the recursive ore-kind test agrees with membership in the set of ore kinds of the stack |
| ChunkConfigs.OreCap | ChunkGenerator/Script/Chunk/PerlinChunkGenerator.cs:134-136 | a layer's cap for an ore kind bounds every limit of its rules for that kind and is one of them (or zero) |
| ChunkConfigs.Cap | ChunkGenerator/Script/Chunk/PerlinChunkGenerator.cs:134-136 | the stack's cap for an ore kind bounds every limit of every rule for that kind, and is the limit of one of those rules (or zero when no rule names the kind) |
| ChunkConfigs.CapWithQuota | ChunkGenerator/Script/Chunk/PerlinChunkGenerator.cs:166-168 | the cap that includes the minimum quotas is at least the cap from the maxima alone |
| Registry.Register | ChunkGenerator/Script/Chunk/PerlinChunkGenerator.cs:47-51 | looking a kind up keeps the registry valid and only extends it; the kind then has an entry at the returned index; a known kind changes nothing, and a new one is appended at the next index |
| Registry.ExtendsTrans | ChunkGenerator/Script/Chunk/PerlinChunkGenerator.cs:144-149 | growing the registry in two steps keeps every earlier entry at its position |
| Registry.FirstIndex | ChunkGenerator/Script/Chunk/PerlinChunkGenerator.cs:41-68 | the position of an element's first occurrence |
| Registry.DedupMembers | ChunkGenerator/Script/Chunk/PerlinChunkGenerator.cs:41-68 | the registered kinds are exactly the kinds the scan meets |
| Registry.DedupDistinct | ChunkGenerator/Script/Chunk/PerlinChunkGenerator.cs:41-68 | no kind is registered twice |
| Registry.DedupOrder | ChunkGenerator/Script/Chunk/PerlinChunkGenerator.cs:41-68 | registered kinds are indexed in the order of their first appearance |
| Registry.RegisterDedup | ChunkGenerator/Script/Chunk/PerlinChunkGenerator.cs:47-51 | registering one more kind extends the deduplicated list of everything seen so far |
| Registry.RegisterEach | ChunkGenerator/Script/Chunk/PerlinChunkGenerator.cs:46-51 | scanning a list of kinds yields the deduplication of everything seen, in order |
| Registry.RegisterTemplates | ChunkGenerator/Script/Chunk/PerlinChunkGenerator.cs:52-59 | the structure scan adds the kinds of the block lists of exactly the structures that have a template |
| Registry.RegisterOres | ChunkGenerator/Script/Chunk/PerlinChunkGenerator.cs:60-67 | the ore scan adds the ore kinds of every layer, layer by layer |
| Registry.InitGlobals | ChunkGenerator/Script/Chunk/PerlinChunkGenerator.cs:41-68 | the registry is the distinct kinds of layers, then templates, then ores, indexed 0..n-1 in first-appearance order, and `index[configs[i]] == i` |
| Mathf.Min | ChunkGenerator/Script/Chunk/PerlinChunkGenerator.cs:125 | the result is one of the arguments and no larger than either |
| Mathf.Max | ChunkGenerator/Script/Blocks/Block.cs:20 | the result is one of the arguments and no smaller than either |
| Mathf.Clamp | ChunkGenerator/Script/Chunk/PerlinChunkGenerator.cs:105 | with min <= max the result lies in [min, max]; a value already inside is kept; below min gives min; at least min and above max gives max, so a reversed band yields min or max |
| Grid.ConsistentGrows | ChunkGenerator/Script/Chunk/PerlinChunkGenerator.cs:144-149 | a grid whose blocks name their registry entries still does so after the registry grows |
| Heights.SurfaceHeight | ChunkGenerator/Script/Chunk/PerlinChunkGenerator.cs:105 | every surface height lies between zeroHeight - maxDown and maxTerrainHeight, in whichever order they come; an in-band rounded value is lifted unchanged; with a reversed band the height is the base level for negative noise and maxTerrainHeight otherwise |
| Heights.GenerateHeightMap | ChunkGenerator/Script/Chunk/PerlinChunkGenerator.cs:101-106 | each height-map entry is its column's clamped surface height, so all lie between the base level and maxTerrainHeight |
| Terrain.StratifiedConsistent | ChunkGenerator/Script/Chunk/PerlinChunkGenerator.cs:126-150 | a stratified grid's blocks all name their own registry entry |
| Terrain.StratifiedGrows | ChunkGenerator/Script/Chunk/PerlinChunkGenerator.cs:144-149 | a grown registry keeps a stratified grid stratified |
| Terrain.RegisterKept | ChunkGenerator/Script/Chunk/PerlinChunkGenerator.cs:144-149 | registering an ore kind of the stack keeps the registry valid, extended, grown only by ore kinds, and unchanged when the ores were registered up front |
| Terrain.Caps | ChunkGenerator/Script/Chunk/PerlinChunkGenerator.cs:134-136 | every ore kind of the stack has a cap, the largest limit among its rules |
| Terrain.CapsCover | ChunkGenerator/Script/Chunk/PerlinChunkGenerator.cs:134-136 | the caps bound each rule of the stack |
| Terrain.CapsGrow | ChunkGenerator/Script/Chunk/PerlinChunkGenerator.cs:162-168 | counts within the maxima stay within the caps that include the quotas |
| Terrain.Record | ChunkGenerator/Script/Chunk/PerlinChunkGenerator.cs:151-153 | recording an ore appends exactly one coordinate to its vein (creating the vein if needed) and bumps its count once, so counts and veins stay equal |
| Terrain.RecordKept | ChunkGenerator/Script/Chunk/PerlinChunkGenerator.cs:151-153 | recording an in-grid coordinate below the kind's cap keeps the ledger matched, in the grid and within the caps |
| Terrain.InitOreCounts | ChunkGenerator/Script/Chunk/PerlinChunkGenerator.cs:115-117 | every ore kind of every layer starts with a zero count, and no other kind has one |
| Terrain.Put | ChunkGenerator/Script/Chunk/PerlinChunkGenerator.cs:129 | writing a block that belongs to its depth keeps the grid stratified and changes only that cell |
| Terrain.PlaceOre | ChunkGenerator/Script/Chunk/PerlinChunkGenerator.cs:141-150 | an ore replaces a cell exactly when it holds a block of the seeded layer's registry index; the replaced block is that layer's kind; the ore kind is registered on first use; nothing else changes, and stratification survives; the backfill at lines 179-188 places ores the same way |
| Terrain.Strike | ChunkGenerator/Script/Chunk/PerlinChunkGenerator.cs:141-153 | one draw places the ore exactly when the drawn cell holds a block of the layer being seeded, which is then replaced by a block of the ore kind at its registry index; a placement records the coordinate and bumps the count once, a miss changes nothing; no other cell changes; the seeding invariants survive |
| Terrain.Spread | ChunkGenerator/Script/Chunk/PerlinChunkGenerator.cs:138-153 | a cluster draw lands on a cell (dx, dz, dy) at most one step from (x, z) on each horizontal axis, clamped into the chunk, and among the top thickness cells of its column, at most one step from y unless clamped to an end of that band; the ore goes there exactly when the cell held a block of the layer, bumping the count once; no other cell changes |
| Terrain.Grow | ChunkGenerator/Script/Chunk/PerlinChunkGenerator.cs:136-153 | one step of a cluster: the ore's count rises by at most one and no other count moves; a changed cell held a block of the layer and now holds the ore |
| Terrain.Cluster | ChunkGenerator/Script/Chunk/PerlinChunkGenerator.cs:136-155 | a cluster raises only its ore's count, never past max(count, maxTotalOres) and by at most clusterSize; every cell it changes held a block of the seeded layer and now holds that ore; no cell is emptied |
| Terrain.SeedRule | ChunkGenerator/Script/Chunk/PerlinChunkGenerator.cs:132-155 | one rule at one laid cell rolls at most one cluster, and only while the ore is below its maximum; only that ore's count moves, and never past max(count, maxTotalOres) |
| Terrain.OreCapStep | ChunkGenerator/Script/Chunk/PerlinChunkGenerator.cs:130-157 | rule after rule, every count stays between its start and the layer's largest maximum for its kind |
| Terrain.SeedOres | ChunkGenerator/Script/Chunk/PerlinChunkGenerator.cs:130-157 | the ore pass at one laid cell never lowers a count nor raises one past the layer's largest maximum for its kind; every cell it changes held a block of the layer and now holds one of the layer's ore kinds; the seeding invariants survive |
| Terrain.Lay | ChunkGenerator/Script/Chunk/PerlinChunkGenerator.cs:126-129 | laying a fresh block of layer i at a depth inside layer i's stratum keeps the grid stratified and occupies exactly that cell |
| Terrain.LayCell | ChunkGenerator/Script/Chunk/PerlinChunkGenerator.cs:129-158 | one laid block plus its ore pass extends the laid run of the column down by one cell |
| Terrain.LayStratum | ChunkGenerator/Script/Chunk/PerlinChunkGenerator.cs:124-159 | layer i lays min(thickness, y + 1) consecutive cells directly beneath layer i - 1, and stops at the layer's end or the grid bottom |
| Terrain.FillColumn | ChunkGenerator/Script/Chunk/PerlinChunkGenerator.cs:121-160 | after a column's pass every height some stratum owns holds a block |
| Terrain.FillRow | ChunkGenerator/Script/Chunk/PerlinChunkGenerator.cs:119-161 | every column of the row is filled |
| Terrain.LayStrata | ChunkGenerator/Script/Chunk/PerlinChunkGenerator.cs:118-161 | every column of the chunk is filled, keeping stratification, registry growth and the capped ledger |
| Terrain.Draw | ChunkGenerator/Script/Chunk/PerlinChunkGenerator.cs:174-178 | a backfill draw lands in the grid, among the top thickness cells of its column; with thickness zero the draw returns the cell just above the surface |
| Terrain.DrawSafe | ChunkGenerator/Script/Chunk/PerlinChunkGenerator.cs:174-178 | for a layer with a positive quota, the height conditions guarantee every draw of the backfill is inside the grid |
| Terrain.Try | ChunkGenerator/Script/Chunk/PerlinChunkGenerator.cs:174-179 | one backfill draw lands on a cell `Draw` can return and reports a hit exactly when that cell holds a block of the layer's registry index; it changes nothing |
| Terrain.Probe | ChunkGenerator/Script/Chunk/PerlinChunkGenerator.cs:170-179 | the draws of one unit: 1 to 100 of them, all 100 unless one hits; each lands on a cell `Draw` can return; every draw but the last misses, and the last hits exactly when the probe reports a hit |
| Terrain.Attempt | ChunkGenerator/Script/Chunk/PerlinChunkGenerator.cs:170-194 | one missing unit: its draws, `drawn`, number `attempts`, at most 100; every draw before the last missed the layer, and the unit places exactly when the last draw held a block of the layer, so it stops at the first placement; the ore then holds that cell and the count rises by one; a unit that places nothing used all 100 draws, none of which held a block of the layer, and changed no cell |
| Terrain.Deposit | ChunkGenerator/Script/Chunk/PerlinChunkGenerator.cs:170-194 | one unit as the tally of misses needs it: a placement bumps the count once; a unit that places nothing made 100 draws, each a cell among the top `thickness` cells of its column, none of which holds a block of the layer afterwards |
| Terrain.Unit | ChunkGenerator/Script/Chunk/PerlinChunkGenerator.cs:168-194 | one unit with its misses tallied: count plus misses rises by exactly one; a unit that placed nothing adds its 100 draws to `missed`, each a drawable cell (in the grid, among the top `thickness` cells of its column) holding no block of the layer |
| Terrain.Replenish | ChunkGenerator/Script/Chunk/PerlinChunkGenerator.cs:165-195 | the count never falls and ends at max(count, minTotalOres) less `misses`, the units that placed nothing, which are at most the units missing; `missed` holds their 100 draws each, every one a drawable cell among the top `thickness` cells of its column and none holding a block of the layer when the backfill ends; only that ore's count moves; a changed cell held a block of the layer and now holds the ore |
| Terrain.Refill | ChunkGenerator/Script/Chunk/PerlinChunkGenerator.cs:163-195 | one rule's backfill as its layer's pass needs it: no count falls, and a changed cell held a block of the layer and now holds the rule's ore |
| Terrain.RuleKinds | ChunkGenerator/Script/Chunk/PerlinChunkGenerator.cs:162-163 | a layer's rules place ore kinds of the stack, and the layer's own kind is one of the stack's layer kinds |
| Terrain.BackfillLayer | ChunkGenerator/Script/Chunk/PerlinChunkGenerator.cs:163-196 | the rules of one layer in turn: no count falls; the layer's registry index is kept; every changed cell held a block of that layer, at that index, and now holds one of that layer's ore kinds |
| Terrain.Backfill | ChunkGenerator/Script/Chunk/PerlinChunkGenerator.cs:162-196 | every layer's rules in turn: no count falls; every changed cell held a block of some layer's kind and now holds an ore kind of the stack, so no cell is emptied; the seeding invariants survive |
| Terrain.GenerateBaseTerrain | ChunkGenerator/Script/Chunk/PerlinChunkGenerator.cs:109-198 | a fresh width x length x height grid, stratified and filled in every column; the registry only grows, and only by ore kinds; the ledger is matched, in the grid, and within the caps |
| Terrain.TerrainExact | ChunkGenerator/Script/Chunk/PerlinChunkGenerator.cs:118-161 | after the layer pass, a cell holds a block exactly when its depth below the surface lies in some stratum |
| Caves.CarveColumn | ChunkGenerator/Script/Chunk/PerlinChunkGenerator.cs:211-224 | one column's cells in the window are emptied where the noise is hollow; all other cells keep their blocks |
| Caves.Carve | ChunkGenerator/Script/Chunk/PerlinChunkGenerator.cs:223 | a carved cell is emptied exactly when it lies in the window and the noise is hollow; otherwise it keeps its block |
| Caves.CarveRow | ChunkGenerator/Script/Chunk/PerlinChunkGenerator.cs:210-224 | every column of the row is carved and no other row changes |
| Caves.GenerateCaves | ChunkGenerator/Script/Chunk/PerlinChunkGenerator.cs:203-225 | carving only empties cells, only at caveMinDepth <= y < min(zeroHeight, height); stratification and registry consistency survive |
| Placement.ProbeInRange | ChunkGenerator/Script/Chunk/PerlinChunkGenerator.cs:291 | the foundation probe index of a footprint column stays inside the template matrix |
| Placement.Collides | ChunkGenerator/Script/Chunk/PerlinChunkGenerator.cs:255-263 | the scan reports a collision exactly when some solid template cell lands on an occupied grid cell |
| Placement.StampCell | ChunkGenerator/Script/Chunk/PerlinChunkGenerator.cs:269-275 | a value naming a block list entry puts a new block of that kind at its registry index; a 0 or out-of-range value leaves the cell; no other cell changes |
| Placement.StampLine | ChunkGenerator/Script/Chunk/PerlinChunkGenerator.cs:267-276 | one z-line of the template is stamped and nothing outside it changes |
| Placement.StampSlice | ChunkGenerator/Script/Chunk/PerlinChunkGenerator.cs:266-276 | one x-slice of the template is stamped and nothing outside it changes |
| Placement.Stamp | ChunkGenerator/Script/Chunk/PerlinChunkGenerator.cs:265-276 | every cell of the box is stamped as its template value says and no cell outside it changes; after a clean collision scan no occupied cell is overwritten |
| Placement.FoundationColumn | ChunkGenerator/Script/Chunk/PerlinChunkGenerator.cs:293-310 | below the base, inside the stack, empty cells get their depth's layer block and occupied cells are kept; below the stack every cell gets the last layer's block; other cells do not change |
| Placement.FoundationRow | ChunkGenerator/Script/Chunk/PerlinChunkGenerator.cs:289-311 | the foundation columns of one footprint row are filled as FoundationColumn says |
| Placement.FillStructureFoundation | ChunkGenerator/Script/Chunk/PerlinChunkGenerator.cs:285-312 | only cells strictly below the base, in footprint columns whose probed matrix entry is non-zero, change, and each ends as FoundationColumn says |
| Placement.Build | ChunkGenerator/Script/Chunk/PerlinChunkGenerator.cs:265-277 | stamp then foundation: every cell ends as the stamp or the foundation says; no cell is emptied; no occupied cell of the box is overwritten; blocks stay consistent with the registry |
| Placement.TooClose | ChunkGenerator/Script/Chunk/PerlinChunkGenerator.cs:247-250 | true exactly when some accepted centre lies nearer than minDistance; a centre that passes keeps the accepted centres pairwise separated |
| Placement.Candidates | ChunkGenerator/Script/Chunk/PerlinChunkGenerator.cs:235-238 | the candidate list holds each column of the chunk exactly once |
| Placement.Accept | ChunkGenerator/Script/Chunk/PerlinChunkGenerator.cs:246-264 | an accepted centre passed the spawn roll, is at least minDistance from every accepted centre, has its box inside the grid and collides with nothing; a certain spawn that is well separated and fits is refused only on a collision |
| Placement.Trial | ChunkGenerator/Script/Chunk/PerlinChunkGenerator.cs:246-277 | an accepted trial is separated from every accepted centre, fits the grid, builds the structure as Build says at the low corner (ox, oy, oz) and overwrites no occupied cell of its box; a refused one changes no cell, and with spawn chance at least 1, a separated centre and a fitting box it is refused only on a collision |
| Placement.MoveTried | ChunkGenerator/Script/Chunk/PerlinChunkGenerator.cs:244-245 | moving the drawn candidate to the tried columns keeps both lists free of repeats and disjoint, and keeps their total length |
| Placement.RemoveAt | ChunkGenerator/Script/Chunk/PerlinChunkGenerator.cs:245 | removing one element of a repeat-free list leaves exactly the other elements |
| Placement.Settle | ChunkGenerator/Script/Chunk/PerlinChunkGenerator.cs:246-279 | an accepted trial appends its centre and its site (column, base height) and leaves every cell as BuiltCell says for that site, overwriting no occupied cell of its box; a refused one records nothing and changes no cell |
| Placement.Step | ChunkGenerator/Script/Chunk/PerlinChunkGenerator.cs:243-279 | one trial consumes one candidate, keeps accepted centres separated and among the tried columns, records a fitting site for each accepted centre, and leaves the grid as Settle states for that site: built per BuiltCell when one is recorded, unchanged otherwise |
| Placement.Advance | ChunkGenerator/Script/Chunk/PerlinChunkGenerator.cs:243-279 | one trial keeps earlier records and changes a cell only inside the template box or below the base in a footprint column of the site it records |
| Placement.PlaceStructure | ChunkGenerator/Script/Chunk/PerlinChunkGenerator.cs:234-280 | toPlace lies in [minCount, maxCount]; each column is tried at most once; at most about half the columns are tried; fewer than toPlace are placed only when that cut-off is reached; accepted centres are pairwise separated, every recorded box fits the grid, and a cell changes only inside the box or the foundation of a recorded site |
| Placement.PlaceStructures | ChunkGenerator/Script/Chunk/PerlinChunkGenerator.cs:227-283 | every recorded structure coordinate lies in the grid; a cell changes only inside the template box or the foundation of a recorded coordinate, built with the template of the rule `owners` names for it; structures never empty a cell, and blocks stay consistent with the registry |
| Mesh.FaceVertices | ChunkGenerator/Script/Chunk/ChunkMeshGenerator.cs:94-102 | four distinct corners of the unit cube at p, all on the plane of face n (down for any other n) |
| Mesh.VisibleAmongIff | ChunkGenerator/Script/Chunk/ChunkMeshGenerator.cs:30-36 | a direction survives the filter exactly when it is listed, is not down and faces the camera |
| Mesh.VisibleAmongDistinct | ChunkGenerator/Script/Chunk/ChunkMeshGenerator.cs:30-36 | the filter keeps a repeat-free list repeat-free |
| Mesh.VisibleDirections | ChunkGenerator/Script/Chunk/ChunkMeshGenerator.cs:21-36 | the visible set is exactly the non-down directions facing the camera, without repeats; down is never in it |
| Mesh.AddFaceEmits | ChunkGenerator/Script/Chunk/ChunkMeshGenerator.cs:77-91 | a face appends exactly 4 entries to each buffer, the face's corners, and start, start+1, start+2, start+2, start+3, start to its own submesh; other submeshes are unchanged |
| Mesh.AddFaces | ChunkGenerator/Script/Chunk/ChunkMeshGenerator.cs:83-91 | emitting faces never changes the number of submeshes |
| Mesh.AddFacesAppend | ChunkGenerator/Script/Chunk/ChunkMeshGenerator.cs:38-50 | emitting two runs of faces in turn is emitting their concatenation |
| Mesh.MeshLengths | ChunkGenerator/Script/Chunk/ChunkMeshGenerator.cs:83-90 | the four vertex buffers stay equal in length, at 4 per face when every face names a submesh |
| Mesh.AddFaceIndices | ChunkGenerator/Script/Chunk/ChunkMeshGenerator.cs:83-91 | one face keeps every submesh made of whole quads whose indices address existing vertices |
| Mesh.MeshIndices | ChunkGenerator/Script/Chunk/ChunkMeshGenerator.cs:83-91 | every index of every submesh is below the vertex count |
| Mesh.AppendFace | ChunkGenerator/Script/Chunk/ChunkMeshGenerator.cs:83-91 | the four-step emission loop appends exactly the face that AddFace describes |
| Mesh.TryAddFace | ChunkGenerator/Script/Chunk/ChunkMeshGenerator.cs:64-92 | a face is emitted exactly when the neighbour is outside, empty or destroyed, or is of a transparent kind while the current kind is opaque; otherwise nothing changes |
| Mesh.DirFacesIff | ChunkGenerator/Script/Chunk/ChunkMeshGenerator.cs:48-49 | a cell's faces over a direction list are exactly the visible faces in those directions |
| Mesh.CellFacesIff | ChunkGenerator/Script/Chunk/ChunkMeshGenerator.cs:42-49 | a face is among its cell's faces exactly when the cell is not excluded, holds a live block and the face is visible |
| Mesh.CellFacesAt | ChunkGenerator/Script/Chunk/ChunkMeshGenerator.cs:46-49 | every face of a cell carries that cell's coordinates |
| Mesh.ScanFacesIff | ChunkGenerator/Script/Chunk/ChunkMeshGenerator.cs:38-50 | the faces scanned before (x, y, z), x-major then y then z, are exactly those of the in-bounds cells that come earlier |
| Mesh.FacesIff | ChunkGenerator/Script/Chunk/ChunkMeshGenerator.cs:38-75 | a face is in the chunk's faces exactly when its cell is not excluded and holds a live block, and the face is in a visible direction and passes the culling rule |
| Mesh.SkippedCells | ChunkGenerator/Script/Chunk/ChunkMeshGenerator.cs:42-45 | no face comes from an empty, destroyed or excluded cell |
| Mesh.SharedFaces | ChunkGenerator/Script/Chunk/ChunkMeshGenerator.cs:70-74 | an emitted face's neighbour is outside, empty or destroyed, or transparent next to an opaque block; so two live opaque cells, or two transparent ones, share no face |
| Mesh.OneSidedTransparency | ChunkGenerator/Script/Chunk/ChunkMeshGenerator.cs:70-74 | between an opaque and a transparent live block, the opaque one shows its face and the transparent one does not |
| Mesh.CellFace | ChunkGenerator/Script/Chunk/ChunkMeshGenerator.cs:48-49 | one step of the direction loop emits that direction's face when it is visible |
| Mesh.MeshCell | ChunkGenerator/Script/Chunk/ChunkMeshGenerator.cs:42-49 | one cell of the scan emits exactly that cell's faces |
| Mesh.LineStep | ChunkGenerator/Script/Chunk/ChunkMeshGenerator.cs:40-49 | one step of the z loop extends the scanned faces by one cell |
| Mesh.MeshLine | ChunkGenerator/Script/Chunk/ChunkMeshGenerator.cs:40-50 | the z loop emits the faces of a whole line |
| Mesh.MeshSlice | ChunkGenerator/Script/Chunk/ChunkMeshGenerator.cs:39-50 | the y loop emits the faces of a whole x-slice |
| Mesh.GenerateMesh | ChunkGenerator/Script/Chunk/ChunkMeshGenerator.cs:6-62 | the mesh holds exactly the visible faces of live, non-excluded cells; there is one submesh per registry entry; the four buffers have 4 entries per face; every index addresses an emitted vertex |
| Renderer.Target | ChunkGenerator/Script/Chunk/ChunkRenderer.cs:43-46 | a hit lands only on an in-bounds cell, on the block stored there |
| Renderer.HitBlockAt | ChunkGenerator/Script/Chunk/ChunkRenderer.cs:43-51 | outside the grid, or on an empty or destroyed cell, the answer is false and nothing changes; otherwise exactly one hit is applied and the answer is whether the block is now destroyed, i.e. whether its health was at most the damage; no other block changes |
| Generator.LayerBlocksHas | ChunkGenerator/Script/Chunk/PerlinChunkGenerator.cs:46-51 | every layer's block is among the kinds the layer scan meets |
| Generator.LayerOreBlocksHas | ChunkGenerator/Script/Chunk/PerlinChunkGenerator.cs:62-67 | every ore's block is among the kinds the scan of its layer meets |
| Generator.OreBlockListHas | ChunkGenerator/Script/Chunk/PerlinChunkGenerator.cs:60-67 | every ore block of every layer is among the kinds the ore scan meets |
| Generator.TemplateBlocksHas | ChunkGenerator/Script/Chunk/PerlinChunkGenerator.cs:52-59 | every block of a template is among the kinds the structure scan meets |
| Generator.SourcesRegistered | ChunkGenerator/Script/Chunk/PerlinChunkGenerator.cs:41-68 | the registry has an entry for every layer, ore and template block, so every later lookup succeeds |
| Generator.ConsistentIndexed | ChunkGenerator/Script/Chunk/ChunkMeshGenerator.cs:91 | a grid consistent with the registry names a submesh of it in every block |
| Generator.Generate | ChunkGenerator/Script/Chunk/PerlinChunkGenerator.cs:28-39 | the whole pipeline, for any height band (also a reversed one) and any layer thickness the ore draws can use: the grid is width x length x chunkMaxHeight; the registry is the deduplicated scan; every block names its own registry entry, so the grid meshes with one submesh per entry; every structure coordinate lies in the grid |

## Left out

- Noise and floating point: the Perlin octaves, normalisation and rounding of the height noise, and the cave density and threshold comparison. The model takes the rounded height value of each column (`rounded`) and the cave verdict of each cell (`hollow`) as inputs.
- Random sources: the seeded generator and the engine's global random value. Draws are nondeterministic choices inside their documented ranges: integer draws within their bounds, and each chance roll a real in [0, 1].
- The log report at the end of generation and the storing of the registry back into the chunk configuration: logging and plumbing.
- Unity mesh construction, the camera and the view-direction dot product. The camera is an input `facing(n)`. The mesh is a value: vertex, normal, uv and uv2 buffers plus one triangle list per registry entry.
- Mesh.Face: the progress value health / strength in uv2 is kept as the integer pair (health, strength) rather than a float.
- Mesh.AddFaces: skips faces whose layer index names no submesh. A consistent grid never produces one (`Generator.ConsistentIndexed`), whereas the source would throw.
- Mesh.GenerateMesh: a missing exclusion set is modelled as the empty set, and the exclusion set is a set of coordinates.
- Renderer.HitBlockAt: the world-to-local float conversion before the bounds check is left out, and so is the visual rebuild after the hit. Its frame assumes distinct cells hold distinct block objects, as every generator pass creates a fresh block per write.
- Editor and scene glue (structure editor, world initialiser, input raycasts) and the chunk data and generator base classes, which only delegate.
- Configuration classes are values. Block kinds compare by an identity field. Materials and the unused ore noise scale are left out.
- Null references in configurations: layers always have an ore list, ore blocks are never null, and the ore-list null test at registry time has no counterpart.
- Terrain.GenerateBaseTerrain: requires every column to be no taller than the grid. The source also runs a taller column when no layer lays a block in it; the model does not cover that case.
- Terrain.GenerateBaseTerrain: requires, for a layer with ores and a thickness of at least one, every column to be at least that thick. The source throws only if a cluster actually draws a cell below the grid. So the model does not cover a layer that no column reaches, or whose ores can never fire (chance <= 0 or maxTotalOres <= 0), over shorter columns.
- Terrain.GenerateBaseTerrain: for a layer with a positive minimum quota, requires a non-empty chunk, a non-negative thickness, columns at least that thick, and (for thickness zero) columns below the top of the grid. When the backfill draws, the source throws on a reversed draw range or an index outside the array. A layer without a positive quota never draws and has no such condition.
- Caves.GenerateCaves: requires the carving window not to start below the grid when it is non-empty. Otherwise the source indexes a negative height and throws.
- Placement.PlaceStructures: requires readable templates (every size component at least 1, the matrix covering the volume) and minCount <= maxCount + 1. Outside the second, the source's random draw throws. Outside the first, it throws on a matrix read, except for a template with a zero or negative size component, which it runs as an empty structure and which the model does not cover.
- Structures.StructureConfig.GetValue: requires the flat index to lie inside the matrix; the source throws outside it. SetValue likewise.
- Placement.TooClose: the spacing test compares squared distances exactly (`Near`). The source compares a float32 square root with minDistance (ChunkGenerator/Script/Chunk/PerlinChunkGenerator.cs:249), which can round differently at the boundary.
- Terrain.Backfill: across layers it states only that a changed cell held a block of some layer's kind and now holds an ore kind. An ore kind that is also a later layer's block can be replaced again by that layer's rules, so the per-layer statement (held a block of that layer, now holds one of its ores) is made by `Terrain.BackfillLayer`.
- Terrain.Attempt: the draws are made first (`Terrain.Probe`) and the ore placed after. The source places inside the draw loop; since no cell changes before the hit, the outcome is the same.
- Integer width: all integers are unbounded. The source's 32-bit arithmetic (flat indices, heights, counts) could wrap only for values far beyond any chunk size, and that wrap-around is not modelled.
- Generator.Generate: its preconditions are those above, stated per column on the surface heights: every height at most chunkMaxHeight, and each layer's ore conditions as in Terrain.GenerateBaseTerrain. Any height band is accepted, including one with maxTerrainHeight below the base level. It does not restate the per-cell stratification, which holds after the layer pass (`Terrain.GenerateBaseTerrain`) but is not kept through structure placement.
