# Domain decomposition, neighbour lists and their companions: a verified model

This project models the parts of the molecular dynamics code in `libhoomd` that keep distributed and cached
data consistent, and proves what they are for.

**Domain decomposition.** The simulation box is cut into a grid of sub-domains, one per rank. Every rank holds
arrays of local particles followed by ghosts, a reverse lookup from tags to array positions, and the bonds with
a local member. In six ordered directions - east, west, north, south, up, down - all ranks hand particles that
have left their sub-domain to their neighbours (`migrateParticles`), build copies of nearby particles on the
ranks that need them (`exchangeGhosts`), and refresh the positions of these copies along the same ways
(`updateGhosts`). The ranks are objects of a class, with the arrays as fields; the steps of all ranks are taken in
lock step, direction by direction, on a grid of any size with any number of particles. The methods on arrays are
proved to compute recursive functions (`Migration.Local`, `Bonds.BondsAt`, `GhostExchange.Held`,
`GhostUpdate.Refreshed`), about which the protocol's promises are then proved:

- every particle always has one owner, every bond is stored exactly where it has a member, and the assertions that
  nothing arriving is already local always hold;
- where a migrating particle ends up on each axis, exactly; this refines the documented postcondition of
  `migrateParticles`, which is not true of every particle: a stray of less than a sub-domain gets home unless it is
  wrapped too soon, and farther ones only from certain ranges;
- ghosts are delivered exactly once, to exactly the ranks that their plans name; with the accepted ghost widths they
  include everything close to a local particle, and the other member of every bond that is not too long; and, under an
  exact condition on the grid, the stored image is the one that is close;
- refreshing positions gives the same as a new exchange;
- the GPU variant with corner, edge and face buffers and a routing table delivers the same as plan bits; the messages
  that sender and receiver post separately match one to one exactly if the receiver knows the right sizes, they land in
  separate places in whatever order, and an update that reuses the sizes of the last exchange meets the right ones;
- over whole runs of `communicate()`, with particles moving in between, ownership, bond tables and ghost positions stay
  right; after every migration that takes all particles home nothing close is missing, and between migrations nothing
  is missing as far as the ghost layer covers the displacements (`CommunicationSteps`).

**Neighbour list.** A cache with a rebuild state machine, a displacement bound, a build that is repeated on overflow,
and exclusions kept by tag and translated to indices. Its class keeps an invariant that implies, after every `compute`,
that lists and exclusions refer to the present particle order and, for any check period, that no interacting pair is
missing when a check is due. The hand-off of
a pending update between the list and the communicator is part of it.

**Cell list.** A spatial index that covers what comparing all pairs would find; every particle is in one slot of one cell.

**Work queue.** A bounded queue with two condition variables, as a state machine over all interleavings of any number
of threads: what producers enter with comes out once, in order, and nobody sleeps while there is something to do.

**Pair forces.** The loop over half lists with Newton's third law accumulates the same as the loop over full lists; and
with lists that were built earlier and checked since, both give the sums over all pairs that interact now, term by term.

## Files

| file | contents |
|---|---|
| `Vectors`, `Sequences`, `Arithmetic` | vectors and directions, filtering, small arithmetic facts |
| `Decomposition`, `Box` | rank grid, neighbours, choice of the grid; local boxes, the shifted box, wrapping |
| `Journey`, `Migration`, `Bonds` | the way of one particle, all particles of all ranks, bonds |
| `GhostExchange`, `GhostGeometry`, `BondGhosts`, `GhostUpdate` | delivery along plans, plans and distances, ghosts for bonds, refreshing |
| `Ranks`, `Communicator`, `GhostCommunicator`, `CommunicationSteps` | the arrays of a rank, all ranks in lock step, whole runs |
| `Routing`, `GpuExchange`, `GpuMessages`, `GpuUpdate` | the routing table, what buffers hold, sizes and messages of two ranks, exchange and update of all ranks |
| `Distances`, `Verlet`, `NeighborSpec`, `Overflow`, `NeighborList` | minimum images, the displacement bound, which pairs are listed, growing memory, the list |
| `CellGrid`, `CellList` | one axis of the cell grid, the cell list |
| `WorkQueue` | the queue |
| `PairSums`, `PairForces`, `PairTerms`, `ForceSteps` | sums over pairs, the coarse-grained pair force, its terms written out, the neighbour list and the force loop together |

## Conventions

- Coordinates are real numbers. Boxes are orthorhombic; the global box is centred at the origin.
- `Attr` stands for all data that travel with a particle without being looked at: charge and diameter by name, and
  likewise type, velocity, acceleration, body and orientation.
- A missing key of the reverse lookup is the value `NOT_LOCAL`. Plans are sets of directions instead of bit masks. A
  row of a two-dimensional table is a sequence; the number of rows used is its length.
- Sending and receiving of one direction is one step of all ranks. Signals become parameters: what a listener answers,
  and which particle order a sort leaves behind.
- Where the code and its comments differ, the model follows the code. `Communicator.h:348` promises that after a migration
  every particle is inside the local domain. `Journey.NotEveryParticleGetsHome` is a particle for which this fails, and
  nothing in the code rejects it: the distance check asks for an update as soon as a displacement reaches its bound, before
  it looks at sub-domain lengths (`NeighborList.cc:812-822`). `Journey.Homecoming` gives the exact condition. It is about
  coordinates up to one image beyond the box, which `BoxDim.h:112` demands for wrapping; `Journey.AxisFate` and
  `Journey.TravelSpots` hold for any. `BoxDim.h:313` limits inputs of the minimum image to one box; on x and y
  the code handles any input, on z exactly those within one and a half boxes (`Distances.OneTurnExact`).
- A maximum diameter below one minus the buffer makes the list radius smaller than the cut-off; the list then misses pairs.
  `NeighborSpec.RadiusMustCoverCutoff` states this in both directions, and the completeness of the list is stated under
  that condition.
- `peekUpdate` consumes a forced update without translating the exclusions. On its own this loses the update
  (`NeighborLists.PeekAloneLosesTheUpdate`); the communicator always migrates and sorts on a positive answer, which
  requests it again (`NeighborLists.NeighborList.MigrateIfRequested`).
- Switching distance checks off only spares them in the step in which the check period is hit, or if it is zero: in later
  steps, and with a period of one, the code still compares displacements (`NeighborList.cc:931-939`), and so does the model.
- The bound on displacements does not know about diameters (`NeighborList.cc:753-769`). With the diameter test on, a box that
  has been rescaled since the last build can therefore bring pairs within their cut-off that are not listed
  (`NeighborLists.ShrinkingLosesLargePairs`); completeness is stated for the pairs whose excess the rescaling does not reduce.

## Model

| member | source | states |
|---|---|---|
| `Decomposition.RankOfCoord` | libhoomd/utils/Index1D.h:152-192 | every grid position has a rank number in range, and the position is recovered from it |
| `Decomposition.CoordOfRank` | libhoomd/utils/Index1D.h:152-192 | every rank number has a position in the grid, and the number is recovered from it: with `RankOfCoord`, a bijection |
| `Decomposition.NeighborInverse` | libhoomd/communication/DomainDecomposition.cc:168-196 | going one way and then back returns to the start; a communicating direction always leads to another rank |
| `Decomposition.Upstream` | libhoomd/communication/Communicator.cc:687-694 | the rank received from is the one whose send neighbour is the receiver |
| `Decomposition.SendMatchesReceive` | libhoomd/communication/Communicator.cc:687-694 | each direction is a permutation of the ranks: A sends to B if and only if B receives from A, for any number of ranks |
| `Decomposition.DomainEdges` | libhoomd/communication/DomainDecomposition.cc:215-226 | consecutive sub-domains share an edge; the first and last edges are those of the global box |
| `Decomposition.BoxesTile` | libhoomd/communication/DomainDecomposition.cc:210-237 | every point of the global box lies in the local box of exactly one rank |
| `Decomposition.RowExhausted` | libhoomd/communication/DomainDecomposition.cc:146-147 | stopping a row when the product exceeds the number of ranks skips no admissible factorisation |
| `Decomposition.PlaneExhausted` | libhoomd/communication/DomainDecomposition.cc:142-143 | the same for a plane of the search |
| `Decomposition.SharedAreaIs` | libhoomd/communication/DomainDecomposition.cc:149 | the quantity that the search minimises is the total area of the faces that neighbouring sub-domains share, added up face by face from the edges of the sub-domains |
| `Decomposition.SearchRow` | libhoomd/communication/DomainDecomposition.cc:146-160 | the innermost loop leaves the best admissible triple among all those visited so far |
| `Decomposition.SearchPlane` | libhoomd/communication/DomainDecomposition.cc:142-161 | so does the middle loop |
| `Decomposition.FindDecomposition` | libhoomd/communication/DomainDecomposition.cc:116-165 | true exactly if some factorisation honours the request; then the result is one for which the faces shared by neighbouring sub-domains have the least total area; otherwise the initial guess is left |
| `Decomposition.ChooseDecomposition` | libhoomd/communication/DomainDecomposition.cc:82-98 | always a full tiling, optimal for the request if that can be honoured and optimal without a request otherwise |
| `Box.ShiftedEdges` | libhoomd/communication/Communicator.cc:1204-1231 | the shifted box is displaced by two ghost widths outwards on the boundary ranks and nowhere else |
| `Box.InsideIsNotWrapped` | libhoomd/communication/Communicator.cc:1200-1243 | a rank's wrapping never moves a coordinate of its own sub-domain |
| `Box.WrapKeepsUnwrapped` | libhoomd/data_structures/BoxDim.h:398-451 | wrapping changes position and image flag together: position + image * L is unchanged |
| `Journey.AxisFate` | libhoomd/communication/Communicator.cc:99-113 | one axis of a migration, exactly and for any coordinate: the two directions take it home iff it is inside, or above its domain by less than one sub-domain or so far that the receiver wraps it into one of the two domains, or likewise below |
| `Journey.TravelSpots` | libhoomd/communication/Communicator.cc:469-831 | the six directions act on the three axes one after the other, wherever the particle starts; the axes influence each other only through how often receivers wrap |
| `Journey.ShortStrayFate` | libhoomd/communication/Communicator.cc:724-737 | a coordinate less than one sub-domain outside gets home unless it was wrapped before its own direction although it lies two ghost widths outside the box |
| `Journey.FarStrays` | libhoomd/communication/Communicator.cc:99-113 | farther out both happen: concrete coordinates of which one gets home and one does not |
| `Journey.TravelKeepsUnwrapped` | libhoomd/communication/Communicator.cc:724-737 | the unwrapped position of a particle never changes, however often it is handed on |
| `Journey.Homecoming` | libhoomd/communication/Communicator.h:340-350 | the documented postcondition of the migration, with the exact condition on the initial position under which it holds on a decomposed axis, whatever happens on the others; for coordinates that may be wrapped at all (one box, `BoxDim.h:112`) |
| `Journey.ShortStraysGetHome` | libhoomd/communication/Communicator.h:340-350 | a particle less than a sub-domain away from its domain gets home iff no earlier axis has made a receiver wrap it too soon |
| `Journey.NotEveryParticleGetsHome` | libhoomd/communication/Communicator.h:348 | the postcondition does not hold in general: a concrete particle on a 2 x 3 x 1 grid, three ghost widths outside the box, is outside its rank's domain after the six steps |
| `Migration.PartitionPermutes` | libhoomd/communication/Communicator.cc:498-509 | sorting into staying and leaving particles loses and duplicates none |
| `Migration.NoClash` | libhoomd/communication/Communicator.cc:773-774 | no particle arrives on a rank that has kept one of the same tag |
| `Migration.Tracking` | libhoomd/communication/Communicator.h:240-243 | after any number of directions each rank holds exactly the particles whose journeys lead to it, once, with all other data unchanged |
| `Migration.EveryTagOnce` | libhoomd/communication/Communicator.h:240-243 | conservation: after every direction each tag is held by exactly one rank, once, and no other tag appears |
| `Migration.MigrationLandsHome` | libhoomd/communication/Communicator.h:348 | for the particles a rank holds at the end: inside its domain iff they found home by that condition; unwrapped position as before the migration |
| `Bonds.MemberMoves` | libhoomd/communication/Communicator.cc:136-155 | a bond member is among the leaving (staying) particles iff the rank owns it and its journey takes it away (leaves it there) |
| `Bonds.Selections` | libhoomd/communication/Communicator.cc:118-199 | the send selection holds exactly the bonds with a leaving member, the kept ones exactly those with a staying member |
| `Bonds.MergedIsUnion` | libhoomd/data_structures/BondData.cc:803-892 | removing marked bonds and adding received ones yields the union of kept and received bonds without duplicates |
| `Bonds.BondResidency` | libhoomd/communication/Communicator.cc:579-829 | after every direction a bond is stored on a rank, once, iff that rank owns at least one of its two members |
| `Ranks.Rank.SortKeys` | libhoomd/communication/Communicator.cc:498-509 | the stable partition of the indices selects exactly the staying and the leaving particles, in order |
| `Ranks.Rank.Reorder` | libhoomd/communication/Communicator.cc:493-570 | all arrays are reordered alike: staying particles first, then leaving ones, nothing else changed |
| `Ranks.Rank.UpdateRtags` | libhoomd/communication/Communicator.cc:572-574 | after reordering the reverse lookup is again exact, although old entries are only overwritten |
| `Ranks.Rank.SelectBonds` | libhoomd/communication/Communicator.cc:579-638 | by index comparison: packs exactly the bonds that touch a leaving particle, marks exactly those that touch no staying one |
| `Ranks.Rank.PackLeaving` | libhoomd/communication/Communicator.cc:639-683 | packs the last particles, shortens the arrays, and makes exactly the packed tags NOT_LOCAL |
| `Ranks.Rank.Send` | libhoomd/communication/Communicator.cc:476-683 | the sending half of a direction: kept and sent particles and bonds are those of the specification |
| `Ranks.Rank.AppendReceived` | libhoomd/communication/Communicator.cc:724-777 | received particles are wrapped and appended; the lookup stays exact |
| `Ranks.Rank.UnpackRemoveBonds` | libhoomd/data_structures/BondData.cc:803-892 | the new table is the merge of the kept and the received bonds |
| `Ranks.Rank.WipeGhosts` | libhoomd/communication/Communicator.cc:450-462 | ghosts and their lookup entries are gone, local particles and bonds are unchanged |
| `Ranks.Rank.MarkBond` | libhoomd/communication/Communicator.cc:883-908 | exactly the local member of an incomplete bond gets the directions of its nearest planes |
| `Ranks.Rank.MarkBonds` | libhoomd/communication/Communicator.cc:870-910 | after all bonds: exactly the members of incomplete bonds are marked |
| `Ranks.Rank.MarkLayers` | libhoomd/communication/Communicator.cc:917-948 | adds to each plan the directions across planes closer than the ghost width, and nothing else |
| `Ranks.Rank.MarkPlans` | libhoomd/communication/Communicator.cc:855-948 | the plans are those that the geometry prescribes for position and bonds |
| `Ranks.Rank.PackGhosts` | libhoomd/communication/Communicator.cc:991-1005 | packs every local or ghost slot with the direction in its plan, in order, and remembers the tags |
| `Ranks.Rank.AppendGhosts` | libhoomd/communication/Communicator.cc:1030-1096 | appends the received slots, wrapped, and enters them into the lookup; requires NOT_LOCAL on arrival, as the source asserts |
| `Ranks.Rank.PackPositions` | libhoomd/communication/Communicator.cc:1131-1139 | packs the present positions of the remembered tags |
| `Ranks.Rank.OverwritePositions` | libhoomd/communication/Communicator.cc:1157-1192 | overwrites the given range with the wrapped message and changes no other position |
| `Communicator.ArrivalsNotLocal` | libhoomd/communication/Communicator.cc:773 | the assertion on arrival always holds: nothing that arrives is already local |
| `Communicator.WipeAll` | libhoomd/communication/Communicator.cc:450-462 | on all ranks: ghosts forgotten, particles and bonds as before |
| `Communicator.MigrateDirection` | libhoomd/communication/Communicator.cc:469-831 | all ranks in lock step: arrays, lookups and bond tables agree with the specification after one more direction |
| `Communicator.MigrateParticles` | libhoomd/communication/Communicator.cc:443-838 | after the six directions all arrays, lookups and bond tables are those of the specification, for any grid and any particles with one owner each |
| `GhostExchange.VisitedHop` | libhoomd/communication/Communicator.cc:991-1014 | a copy is never forwarded to a rank it has already visited |
| `GhostExchange.VisitedBack` | libhoomd/communication/Communicator.cc:991-1014 | whoever is visited after one more direction was visited before or is the next hop of a visited rank |
| `GhostExchange.ArrivesNotLocal` | libhoomd/communication/Communicator.cc:1093 | the assertion on arrival of a ghost always holds |
| `GhostExchange.Delivery` | libhoomd/communication/Communicator.cc:960-1097 | after any number of directions a rank holds its own particles first, then one copy of exactly the particles whose itinerary has come by |
| `GhostExchange.GhostsExactlyOnce` | libhoomd/communication/Communicator.cc:960-1097 | a particle is a ghost, once, on precisely the ranks offset by a non-empty subset of its communicating plan directions, never on its owner |
| `GhostGeometry.LayerMarks` | libhoomd/communication/Communicator.cc:929-946 | the comparisons of fractional coordinates mean: closer than the ghost width to the plane |
| `GhostGeometry.WidthGuardIsExact` | libhoomd/communication/Communicator.h:285-298 | a ghost width under half a sub-domain is exactly what keeps every plan from holding both directions of an axis |
| `GhostGeometry.MarkedPlanIsOneWay` | libhoomd/communication/Communicator.cc:881-947 | no plan ever holds both directions of a decomposed axis |
| `GhostGeometry.SetGhostLayerWidth` | libhoomd/communication/Communicator.h:285-298 | accepts a width iff no position and bond status could give a plan with both directions of a decomposed axis |
| `GhostGeometry.CloseMeansMarked` | libhoomd/communication/Communicator.cc:917-947 | two points within the ghost width modulo the box lie in the same or in neighbouring sub-domains, and the first is marked towards the second |
| `GhostGeometry.GhostCompleteness` | libhoomd/communication/Communicator.h:210-214 | after the exchange every particle within the ghost width of a local particle, per axis and modulo the box, is present on that rank |
| `GhostGeometry.ImageGuardIsExact` | libhoomd/communication/Communicator.cc:1200-1243 | all ghosts of an axis are stored next to the sub-domain that needs them iff the axis has at least three sub-domains or the layer is at most a sixth of the box |
| `GhostGeometry.SlotsWrappedOnce` | libhoomd/communication/Communicator.cc:1083-1089 | wrapping at every hop stores the same position as one wrapping on the final rank |
| `GhostGeometry.StoredImageRealisesDistance` | libhoomd/communication/Communicator.cc:917-1096 | under that condition the stored position of a layer ghost is the very image that is close to the local particle |
| `GhostGeometry.StoredGuardIsExact` | libhoomd/communication/Communicator.cc:1200-1243 | the condition is exact for the stored image, too: if it fails, there are a particle and a neighbour close to it whose slot stores another image |
| `BondGhosts.NearestPlane` | libhoomd/communication/Communicator.cc:887-905 | of two points less than half a sub-domain apart in different sub-domains, the nearest plane of the first is the one towards the second |
| `BondGhosts.BondCompleteness` | libhoomd/communication/Communicator.cc:868-908 | after the exchange both members of a bond are on the ranks of both, if the members are less than half a sub-domain apart on every decomposed axis, whichever of them is the local one |
| `BondGhosts.LongBondMisses` | libhoomd/communication/Communicator.cc:868-908 | the bound is needed: a concrete member of a longer bond whose plan does not lead to the rank of its partner |
| `GhostUpdate.SlotsAreImages` | libhoomd/communication/Communicator.cc:1083-1089 | every slot of every rank holds its owner's position up to a lattice shift, and its owner's charge and diameter |
| `GhostUpdate.HeldItinerary` | libhoomd/communication/Communicator.cc:991-1005 | which slots exist, in which order, depends on tags and plans only, not on positions or the box |
| `GhostUpdate.StartIsLength` | libhoomd/communication/Communicator.cc:1157-1159 | the running start index of an update is where the exchange appended the ghosts of that direction |
| `GhostUpdate.MessageReplays` | libhoomd/communication/Communicator.cc:1130-1139 | the looked-up positions of the remembered tags are those that a new exchange would send |
| `GhostUpdate.UpdateRefinesExchange` | libhoomd/communication/Communicator.cc:1107-1198 | an update leaves, in every slot, what a new exchange of the present positions in the present box would leave; all tags stay |
| `GhostCommunicator.MarkAll` | libhoomd/communication/Communicator.cc:855-948 | on all ranks: plans as specified, everything else as before |
| `GhostCommunicator.ExchangeDirection` | libhoomd/communication/Communicator.cc:960-1097 | all ranks in lock step: slots, lookups and remembered lists agree with the specification after one more direction |
| `GhostCommunicator.ExchangeGhosts` | libhoomd/communication/Communicator.cc:841-1104 | from particles with one owner each: the arrays of every rank are those of the specification after six directions |
| `GhostCommunicator.UpdateGhosts` | libhoomd/communication/Communicator.cc:1107-1198 | the position arrays of all ranks equal those of a new exchange of the present positions; nothing but positions changes |
| `GhostCommunicator.MigrateAndExchange` | libhoomd/communication/Communicator.cc:422-432 | migration then exchange: local particles and bonds as the migration says, ghosts as the exchange of these says |
| `GhostCommunicator.LocalsKept` | libhoomd/communication/Communicator.cc:1030-1072 | the exchange leaves the local particles as they are |
| `CommunicationSteps.LogicalOr` | libhoomd/communication/Communicator.h:166-191 | true iff some answer is true, false without answers |
| `CommunicationSteps.MustMigrate` | libhoomd/communication/Communicator.cc:421-422 | migration happens iff it was forced, somebody asks for it, or it is the first step |
| `CommunicationSteps.MigrationSettles` | libhoomd/communication/Communicator.h:240-243 | migration keeps the whole-system invariant: same tags, one owner each, every bond exactly where a member is |
| `CommunicationSteps.ShownMirrors` | libhoomd/communication/Communicator.h:336-337 | slots as an exchange leaves them hold an image of the present position of one local particle of the system |
| `CommunicationSteps.HomeAfter` | libhoomd/communication/Communicator.h:348 | if all particles find home, every particle a rank holds after the migration is inside its domain on every decomposed axis |
| `CommunicationSteps.ShownComplete` | libhoomd/communication/Communicator.h:206-208 | in terms of the ranks' arrays: whatever is within the ghost width of a local particle is among the rank's tags |
| `CommunicationSteps.ShownBonds` | libhoomd/communication/Communicator.cc:868-908 | in terms of the ranks' arrays: every rank knows both members of the bonds it stores, as local particles or as ghosts |
| `CommunicationSteps.MigratedIsComplete` | libhoomd/communication/Communicator.h:201-214 | migration and exchange together: if all particles get home, no rank misses a particle close to its own |
| `CommunicationSteps.Communicate` | libhoomd/communication/Communicator.cc:416-440 | one call, in either branch, from any state of a run: all slots mirror their owners, no particle or bond is lost or made up, and the state allows the next call; if all particles got home when they migrated last, no rank misses a particle close to its own or the partner of a bond, and between migrations nothing close as far as the ghost layer covers the displacements |
| `CommunicationSteps.NothingMissingYet` | libhoomd/communication/Communicator.h:217-224 | between migrations: while particles have moved by no more than half of what the ghost layer is wider than a distance, every rank knows all particles within that distance of its own, whatever the box does |
| `CommunicationSteps.Move` | libhoomd/communication/Communicator.h:203-208 | moving local particles and rescaling the box between calls keeps what the next call relies on |
| `Routing.BufferFor` | libhoomd/communication/Communicator.cc:271-301 | for every plan without opposite directions the buffer of that plan |
| `Routing.WayDecides` | libhoomd/communication/Communicator.cc:271-301 | buffers and plans without opposite directions correspond one to one |
| `Routing.NotYetSent` | libhoomd/communication/Communicator.cc:346-352 | an edge is active iff none of its directions is sent in this or an earlier step |
| `Routing.FirstEdge` | libhoomd/communication/Communicator.cc:343-357 | the edge search finds exactly the edge for the rest of the corner's plan, if two directions are left |
| `Routing.FirstFace` | libhoomd/communication/Communicator.cc:361-371 | the face search finds exactly the face for the rest of the plan, if one direction is left |
| `Routing.RouteCorner` | libhoomd/communication/Communicator.cc:333-376 | a corner is routed to the buffer for the rest of its plan and nowhere else |
| `Routing.RouteEdge` | libhoomd/communication/Communicator.cc:378-401 | so is an edge |
| `Routing.SetupRoutingTable` | libhoomd/communication/Communicator.cc:303-413 | in every direction the table routes each buffer to the buffer for the rest of its plan, and has no other entries |
| `GpuExchange.ClassifiedPacks` | libhoomd/cuda/CommunicatorGPU.cu:956-1084 | sorting particles by plan, restricted to communicating directions, puts each with such a plan into exactly one buffer, once, with its data |
| `GpuExchange.OneHop` | libhoomd/communication/CommunicatorGPU.cc:1913-2174 | a buffer entry is stored after one more direction iff it was stored before or has just arrived, never both |
| `GpuExchange.BufferContents` | libhoomd/communication/CommunicatorGPU.cc:1439-1563 | in every buffer of every rank a tag occurs once or not at all, exactly where its plan has led it, with and without replication |
| `GpuExchange.SameReach` | libhoomd/communication/Communicator.h:104-120 | the ranks reached through buffers are those reached by plan bits |
| `GpuExchange.BuffersDeliverTheGhosts` | libhoomd/communication/CommunicatorGPU.cc:1439-1587 | the buffered exchange delivers on every rank the same tags, each as often, as forwarding by plans |
| `GpuExchange.BuffersStoreTheSameImages` | libhoomd/cuda/CommunicatorGPU.cu:1209-1326 | wrapping once on unpacking stores the same positions as wrapping at every hop |
| `GpuExchange.UniqueDestination` | libhoomd/communication/CommunicatorGPU.cc:1701-1702 | without replication a particle is delivered once, on the rank at the sum of its plan's offsets, and nowhere else |
| `GpuMessages.AddCorner` | libhoomd/communication/CommunicatorGPU.cc:1692-1710 | the size of a corner message is added to its destination and to no other buffer |
| `GpuMessages.AddEdge` | libhoomd/communication/CommunicatorGPU.cc:1720-1732 | the same for an edge message |
| `GpuMessages.StepOne` | libhoomd/communication/CommunicatorGPU.cc:1641-1791 | the announced size of each buffer is the total over all buffers routed to it |
| `GpuMessages.AnnouncedIsSent` | libhoomd/communication/CommunicatorGPU.cc:1692-1743 | what is announced is the length of what is sent |
| `GpuMessages.Exchanger.Post` | libhoomd/communication/CommunicatorGPU.cc:1942-1965 | one entry of the routing table: the message is sent and the receive posted behind what the buffer holds, each only if it is not empty, and the tag advances in any case |
| `GpuMessages.Exchanger.StepTwo` | libhoomd/communication/CommunicatorGPU.cc:1793-2174 | each side on its own posts what the specification lists, turn by turn; thirteen requests suffice for each |
| `GpuMessages.Pairing` | libhoomd/communication/CommunicatorGPU.cc:1906-2174 | the messages of the sender and the receives of the receiver match one to one - same tags, sizes and order - iff the receiver knows the size of every buffer that is sent |
| `GpuMessages.RequestsApart` | libhoomd/communication/CommunicatorGPU.cc:1942-1965 | no two receives write to the same place, and none to data that is there already or being sent |
| `GpuMessages.ReceivedIsAnnounced` | libhoomd/communication/CommunicatorGPU.cc:1692-1743 | per buffer, the receives bring exactly what step one announces for the same sizes |
| `GpuMessages.WaitAll` | libhoomd/communication/CommunicatorGPU.cc:2200-2203 | requests may complete in any order: every message ends up in its place, and nothing else changes |
| `GpuMessages.Delivered` | libhoomd/communication/CommunicatorGPU.cc:1793-2204 | once all messages have landed, every buffer holds its old data followed by exactly the messages routed to it |
| `GpuUpdate.TellAll` | libhoomd/communication/CommunicatorGPU.cc:1683-1791 | step one on all ranks: each knows the sizes of the buffers it will receive from, and by how much each of its own will grow |
| `GpuUpdate.RequestsAreMet` | libhoomd/communication/CommunicatorGPU.cc:1906-2174 | a rank that knows the sizes of its upstream neighbour: all its receives and all the neighbour's messages match |
| `GpuUpdate.StepTwoAll` | libhoomd/communication/CommunicatorGPU.cc:1793-2204 | step two on all ranks, with sizes told now or earlier: the specified buffers, and right counters for the next direction |
| `GpuUpdate.BufferedExchange` | libhoomd/communication/CommunicatorGPU.cc:1439-1563 | after six directions the buffers of all ranks are those of the specification, and every rank remembers all sizes |
| `GpuUpdate.UpdateReplaysExchange` | libhoomd/communication/CommunicatorGPU.cc:198-262 | other data of the same particles meets the same sizes and the same tag in every slot as the last exchange |
| `GpuUpdate.UpdateBuffers` | libhoomd/communication/CommunicatorGPU.cc:228-260 | six directions of step two with the remembered sizes and no step one: all messages match, and the buffers end up with what a full exchange of the new data would put there |
| `Distances.TurnsWithinHalf` | libhoomd/data_structures/BoxDim.h:358-386 | on x and y the minimum image lies within half a box, however far away the input is |
| `Distances.MinImageShortest` | libhoomd/data_structures/BoxDim.h:310-390 | the minimum image is an image and no image is shorter, for z within one and a half boxes |
| `Distances.OneTurnExact` | libhoomd/data_structures/BoxDim.h:342-356 | the single turn on z gives the shortest image iff the input is within one and a half boxes |
| `Verlet.AxisSeparation` | libhoomd/computes/NeighborList.cc:805-811 | one component of the separation splits into the rescaled old one and the two drifts |
| `Verlet.StaysListed` | libhoomd/computes/NeighborList.cc:758-825 | two particles that interact now, and whose drifts beyond the box dilation are within the bound, were within the list radius at the last build |
| `NeighborSpec.WideningIsRadius` | libhoomd/computes/NeighborList.cc:1095-1107 | the squared test with diameters is the test against the widened radius |
| `NeighborSpec.AcceptedWithin` | libhoomd/computes/NeighborList.cc:1083-1107 | a pair passes the build test iff it is within the list radius, widened by half the excess of the diameters if that test is on, and not in one body with that test on |
| `NeighborSpec.InteractingIsAccepted` | libhoomd/computes/NeighborList.cc:1105-1107 | a pair within the cut-off - widened by half the excess of the diameters if the diameter test is on - passes the build test if the list radius covers the cut-off |
| `NeighborSpec.RadiusMustCoverCutoff` | libhoomd/computes/NeighborList.cc:1052-1057 | a fresh list covers all interacting pairs iff the list radius is at least the cut-off, which a small maximum diameter can violate |
| `NeighborSpec.FullIsSymmetric` | libhoomd/computes/NeighborList.cc:1107-1140 | full lists are symmetric, each the half list plus the reverse entries |
| `NeighborSpec.FinalListMeans` | libhoomd/computes/NeighborList.cc:1072-1240 | the final list holds, in increasing order, exactly the particles that pass the distance, diameter and body tests and are not excluded by tag |
| `Overflow.GrownExact` | libhoomd/computes/NeighborList.cc:1113-1119 | the overflow condition stays equal to the longest row beyond the memory, however rows grow |
| `Overflow.ExactDecides` | libhoomd/computes/NeighborList.cc:1265-1280 | the condition exceeds the memory iff some row does, and then it is the memory that suffices |
| `NeighborLists.NeighborList.IsExcluded` | libhoomd/computes/NeighborList.cc:551-567 | true iff the exclusion is recorded |
| `NeighborLists.NeighborList.AddExclusion` | libhoomd/computes/NeighborList.cc:335-383 | adds exactly the pair in both directions; tables stay symmetric and duplicate-free with growth; a new exclusion forces an update |
| `NeighborLists.NeighborList.UpdateExListIdx` | libhoomd/computes/NeighborList.cc:1153-1189 | afterwards all exclusion indices refer to the present particle order |
| `NeighborLists.NeighborList.BuildNlist` | libhoomd/computes/NeighborList.cc:1030-1149 | rejects exactly the boxes not more than twice the list radius wide; otherwise counts all neighbours, stores what fits and records the true need |
| `NeighborLists.NeighborList.CheckConditions` | libhoomd/computes/NeighborList.cc:1265-1280 | reports overflow iff a row did not fit, and then raises the memory to fit all rows |
| `NeighborLists.NeighborList.Rebuild` | libhoomd/computes/NeighborList.cc:210-223 | the lists are complete after at most two builds |
| `NeighborLists.NeighborList.FilterNlist` | libhoomd/computes/NeighborList.cc:1193-1243 | in place: each list becomes its sublist without the excluded indices, counts included |
| `NeighborLists.NeighborList.DistanceCheck` | libhoomd/computes/NeighborList.cc:737-851 | true iff some particle has drifted, beyond the box dilation, at least as far as the bound allows |
| `NeighborLists.NeighborList.NeedsUpdating` | libhoomd/computes/NeighborList.cc:886-966 | one answer per time step unless forced in between; a forced update is granted and consumed; otherwise no before the period has passed, and from then on whether some drift reaches the bound - except that the answer is yes with a tiny buffer, and with checks off when the period is hit |
| `NeighborLists.NeighborList.ShouldCompute` | libhoomd/computes/Compute.cc:121-149 | one computation per time step unless forced; a forced one does not use up the regular one |
| `NeighborLists.NeighborList.Compute` | libhoomd/computes/NeighborList.cc:192-232 | on every normal return: lists and exclusion indices refer to the present order, a pending update was carried out, and whenever a check is due under the period, whatever it is, no interacting pair is missing; and when a computation is made |
| `NeighborLists.NeighborList.NoPairMissing` | libhoomd/computes/NeighborList.cc:192-232 | the invariant of any run implies completeness wherever a check was due: every non-excluded pair within the cut-off now - with or without the diameter test - is in the list, in full lists in both directions |
| `NeighborLists.NeighborList.CheckedEveryStep` | libhoomd/computes/NeighborList.cc:894-898 | with a period of at most one a check is due in every step |
| `NeighborLists.ShrinkingLosesLargePairs` | libhoomd/computes/NeighborList.cc:758-769 | the bound on drifts does not know about diameters: a concrete pair of large particles that a shrinking box brings within their cut-off although no drift reaches the bound, and that was not accepted before |
| `NeighborLists.NeighborList.StillWide` | libhoomd/computes/NeighborList.cc:1060-1066 | the test that the box is wide enough is made when the list is built; as long as checks pass it still holds for the cut-off, however the box has been rescaled |
| `NeighborLists.NeighborList.ForceCompute` | libhoomd/computes/Compute.cc:151-156 | exactly one computation in any case, leaving the invariant and complete lists |
| `NeighborLists.NeighborList.Sort` | libhoomd/computes/NeighborList.cc:150 | a new particle order keeps the invariant because it forces an update |
| `NeighborLists.NeighborList.SetEvery` | libhoomd/computes/NeighborList.h:182-187 | changes the check period and forces an update |
| `NeighborLists.NeighborList.SetStorageMode` | libhoomd/computes/NeighborList.h:197-201 | changes the storage mode and forces an update |
| `NeighborLists.NeighborList.PeekUpdate` | libhoomd/computes/NeighborList.cc:1328-1337 | the question consumes a forced update; answered no, the invariant still holds |
| `NeighborLists.NeighborList.MigrateIfRequested` | libhoomd/communication/Communicator.cc:421-432 | question and migration together keep the invariant: the consumed update is requested again by the sort |
| `NeighborLists.PeekAloneLosesTheUpdate` | libhoomd/computes/NeighborList.cc:1328-1337 | a concrete run in which the question alone consumes the update while exclusion indices are stale |
| `WorkQueues.StepKeeps` | libhoomd/extern/WorkQueue.h:23-71 | every atomic step of every thread, spurious wake-ups included, keeps order, limit and the wake-up invariant |
| `WorkQueues.RunKeeps` | libhoomd/extern/WorkQueue.h:23-71 | so does every run of any number of threads |
| `WorkQueues.NothingLost` | libhoomd/extern/WorkQueue.h:23-71 | counted from the arguments with which producers enter: each value is popped, in the queue, or with a blocked or woken producer exactly as often |
| `WorkQueues.CarriesItsOwn` | libhoomd/extern/WorkQueue.h:23-31 | a blocked or woken producer carries what it entered with |
| `WorkQueues.PushesItsOwn` | libhoomd/extern/WorkQueue.h:23-31 | a producer that finds room, at once or after waiting, puts what it entered with behind everything pushed before |
| `WorkQueues.NeverStuck` | libhoomd/extern/WorkQueue.h:23-71 | in every reachable state: first in first out, whatever producers entered with is popped, queued or still with them, each as often, never above the limit, and no blocked consumer with work or producer with room while no thread can go on |
| `WorkQueues.GoingOn` | libhoomd/extern/WorkQueue.h:23-71 | a thread that can go on has an enabled step |
| `WorkQueues.WorkQueue.PushLocked` | libhoomd/extern/WorkQueue.h:23-32 | the locked section of push is the push step: blocks iff full, otherwise appends |
| `WorkQueues.WorkQueue.NotifyOne` | libhoomd/extern/WorkQueue.h:33 | the notification is the notify step: some waiting consumer is woken if there is one |
| `WorkQueues.WorkQueue.PopLocked` | libhoomd/extern/WorkQueue.h:58-71 | the locked section of a pop is the pop step: blocks iff empty, otherwise takes the oldest element |
| `CellGrid.BinBounds` | libhoomd/computes/CellList.cc:486-510 | a coordinate in range gets a cell of the grid, also at the upper edge of a periodic axis |
| `CellGrid.RangeMeans` | libhoomd/computes/CellList.cc:486-499 | being in range means in lengths: in the box with both edges if periodic, otherwise in the box or the one cell wide ghost layer, without the upper edge |
| `CellGrid.RoundDown` | libhoomd/computes/CellList.cc:106-111 | the largest multiple that is not larger |
| `CellGrid.WideEnough` | libhoomd/computes/CellList.cc:115-163 | with the computed dimension or any smaller one, cells are at least as wide as the nominal width, ghost layers included |
| `CellGrid.AxisCovered` | libhoomd/computes/CellList.cc:486-510 | coordinates within `radius` nominal widths, modulo the box on periodic axes, fall in cells at most `radius` apart, modulo the grid |
| `CellLists.WrapCell` | libhoomd/computes/CellList.cc:414-416 | the truncating remainder with its correction is the non-negative remainder |
| `CellLists.AdjacencyMembers` | libhoomd/computes/CellList.cc:410-429 | the block loop visits exactly the cells near the given one |
| `CellLists.DuplicateFree` | libhoomd/computes/CellList.cc:410-429 | it visits no cell twice iff every dimension is at least as large as the block |
| `CellLists.AdjacencyMeans` | libhoomd/computes/CellList.cc:383-434 | the adjacency is sorted, symmetric, holds exactly the near cells, and is duplicate-free iff the dimensions are large enough |
| `CellLists.CellsCoverBruteForce` | libhoomd/computes/CellList.cc:383-516 | binned points within reach of each other fall in cells listed in each other's adjacency |
| `CellLists.InRangeIsBinned` | libhoomd/computes/CellList.cc:486-523 | a point in range is binned, in its geometric cell |
| `CellLists.OutOfRangeIsNotBinned` | libhoomd/computes/CellList.cc:491-499 | nothing beyond the box and its ghost layer on an axis that is not periodic is binned |
| `CellLists.RowsMean` | libhoomd/computes/CellList.cc:476-565 | a particle is listed in a cell iff it is binned there; lists are strictly increasing |
| `CellLists.OneSlotEach` | libhoomd/computes/CellList.cc:476-565 | every binned particle occupies exactly one slot of exactly one cell |
| `CellLists.SizesAddUp` | libhoomd/computes/CellList.cc:466-563 | the cell sizes add up to the number of binned particles |
| `CellLists.CellList.InitializeCellAdj` | libhoomd/computes/CellList.cc:383-438 | the table of all cells holds their sorted adjacencies |
| `CellLists.CellList.ComputeCellList` | libhoomd/computes/CellList.cc:440-572 | counts all binned particles, stores what fits, records the true maximum, and records a lost local particle iff there is one |
| `CellLists.CellList.CheckConditions` | libhoomd/computes/CellList.cc:574-617 | reports overflow iff a cell did not fit and then raises the memory to fit all; reports the lost particle |
| `CellLists.CellList.Update` | libhoomd/computes/CellList.cc:205-221 | at most two computations; normal iff no local particle is lost, and then every cell lists all its particles |
| `PairSums.ListSum` | libhoomd/computes/CGCMMForceCompute.cc:282-347 | the full list sums everything, and so does a half list plus the reactions of earlier particles |
| `PairSums.ForcesCancel` | libhoomd/computes/CGCMMForceCompute.cc:338-347 | action and reaction cancel in the total |
| `PairSums.AccumulatedIsSum` | libhoomd/computes/CGCMMForceCompute.cc:261-360 | the loop of the code over all lists, updating both particles or one, gives for every particle the sum over its links |
| `PairSums.NextStage` | libhoomd/computes/CGCMMForceCompute.cc:261-360 | working off one particle's list takes the force arrays from one stage of the sum to the next |
| `PairForces.MirroredEntries` | libhoomd/computes/CGCMMForceCompute.cc:171-185 | writing both positions keeps the matrix symmetric and changes no other entry |
| `PairForces.PairForceCompute.SetParams` | libhoomd/computes/CGCMMForceCompute.cc:163-186 | rejects exactly the unknown types; otherwise exactly the two entries change and the matrices stay symmetric |
| `PairForces.MinImageOdd` | libhoomd/data_structures/BoxDim.h:315-390 | the minimum image of the reversed vector is the reversed one, or both lie at exactly half a box |
| `PairForces.ThirdLaw` | libhoomd/computes/CGCMMForceCompute.cc:294-347 | given symmetric parameters the pair (k, i) contributes the reaction of (i, k) |
| `PairForces.FinalListSelects` | libhoomd/computes/NeighborList.cc:1107-1240 | the neighbour list selects exactly the linked particles - all, or the later ones |
| `PairForces.PairForceCompute.AddList` | libhoomd/computes/CGCMMForceCompute.cc:282-359 | working off one list in place equals the specified accumulation, with or without third-law updates |
| `PairForces.PairForceCompute.Accumulate` | libhoomd/computes/CGCMMForceCompute.cc:237-360 | in place and for any lists: the force, energy and virial arrays are what the loop specifies |
| `PairForces.ThirdLawEquivalence` | libhoomd/computes/CGCMMForceCompute.cc:237-347 | the loop over half lists with third-law updates and the loop over full lists without give the same forces, energies and virials, for lists built at any earlier positions; and the total force is zero |
| `PairTerms.BruteForceIsSum` | libhoomd/computes/CGCMMForceCompute.cc:282-347 | number by number: each component of force, energy and virial is the plain sum, over the particles within the cut-off, of the minimum image of r_i - r_k times the force factor, of the energy share, and of half the products of components times the factor; all others add zero |
| `PairTerms.OnePartner` | libhoomd/computes/CGCMMForceCompute.cc:293-333 | a particle with one partner is pushed straight away from it if the law is repulsive and pulled towards it if attractive |
| `PairTerms.NoPartner` | libhoomd/computes/CGCMMForceCompute.cc:306-307 | from the cut-off on there is nothing: a particle without a partner has no force, energy or virial |
| `ForceSteps.CachedListsSuffice` | libhoomd/computes/NeighborList.h:80-84 | the loop over lists that were built earlier gives the sum over all pairs that are within the cut-off now and not excluded |
| `ForceSteps.ComputeForces` | libhoomd/computes/CGCMMForceCompute.cc:217-360 | list computation and force loop together: in either storage mode, whenever a check is due under the period, all numbers are the sums of `PairTerms` over the pairs that are within the cut-off now and not excluded, and the forces add up to zero |

## Left out

- Journey.Homecoming: for coordinates no more than one image beyond the box, as wrapping demands; farther ones may be wrapped several times.
- GhostGeometry.GhostCompleteness: for particles inside their owners' domains, as after a migration in which all got home.
- BondGhosts.BondCompleteness: for bonds shorter than half a sub-domain per axis; members of longer ones may be sent to the wrong side (`BondGhosts.LongBondMisses`).
- GhostGeometry.StoredImageRealisesDistance: not for ghosts marked because of an incomplete bond; these may lie far outside the layer, and only their delivery and their being images of their owners are stated.
- NeighborLists.NeighborList.Compute: completeness is stated for a single domain, for the steps in which a check is due, and for positions whose z lies in the box; lists and indices being current is stated in general.
- NeighborLists.NeighborList.DistanceCheck: the check of a single domain. With several, the ranks agree on the largest answer, and a box that changes by a local box length, or a particle outside the local box, is an error.
- NeighborLists.NeighborList.BuildNlist: full lists only without ghosts, since the code clears the counters of local particles only; the loop is sequential.
- CellLists.CellList.ComputeCellList: ghosts beyond the box along a periodic axis are excluded; the code does not check their cell number and would write outside its arrays.
- CellLists.CellList.Update: the same ghosts are excluded.
- CellGrid.WideEnough: the reduction to a maximum number of cells is any reduction that leaves a cell per axis; the power function is not modelled.
- PairForces.ThirdLaw: for boxes at least twice as wide as the cut-off, which the neighbour list enforces; at exactly half a box the minimum image is not odd.
- PairForces.PairForceCompute.Accumulate: the pair law is an arbitrary function of the squared distance and the coefficients; its powers are not modelled.
- ForceSteps.ComputeForces: without ghosts; that the sum is over all interacting pairs is stated for a force cut-off of at most the one of the list, without the diameter test, and for the steps in which a check is due.
- GpuMessages.Exchanger.StepTwo: of the two variants only the one with two-sided messages; buffers grow as needed instead of by a resize factor. The entries of an update carry the tags of their slots, which the code does not send.
- CommunicationSteps.Communicate: a migration is made only with an accepted ghost width; the code checks the width when it is set, not again when the box shrinks.
- Triclinic boxes, floating-point rounding, wrap-around of unsigned integers, and positions that are not numbers.
- MPI, one-sided windows, and array handles. Of the CUDA kernels only the sorting of ghosts into buffers and their unpacking are modelled, one particle after the other; the statements about buffers do not depend on the order in which threads fill them.
- The bond part of the GPU migration, whose receive path tests the capacity of the particle buffer.
- The reverse lookup of bonds; a bond counts as present if its tag is in the table.
- Caching flags of the cell list, its type, diameter, body and orientation payloads, and grids without cells.
- Reallocation when the maximum number of particles changes, clearing exclusions, exclusions derived from bonds, angles and dihedrals, changing the cut-off or the maximum diameter, statistics and warnings.
- Exclusion of a particle from itself.
- Other forces, constraints, integrators, analysers, file formats, logging, profiling and the Python interface.
