# Tether chain of tripwire, modelled in Dafny

The game lets the player drive a stake into the ground when they press a key. The stake is tied
to the player by two distance joints: a "final" joint, which is the growing side of the
chain, and a longer "tether" joint. When the player moves away, the chain should grow one
capsule segment at a time. The old final joint is re-pointed at the new segment, and a fresh
final joint runs from the segment to the player. All of this lives in `src/chain.rs`:
- the `ChainInfo` resource, with its decision `should_extend` and its two updates
  `deploy_segment` and `deploy_stake`;
- the three systems `handle_chain_info` (distance telemetry), `extend_chain` (the splice)
  and `deploy_stake` (anchoring).

The model has two levels.
- `ecs.dfy` (module `Ecs`) holds a snapshot of the parts of the Bevy world that these systems
  touch. Entities are naturals handed out from a counter. The world records which entities
  carry a `Transform`, the `Player`, `ChainPrimary` and `ChainTarget` markers, and the distance
  joints. A joint keeps only its two end points and its `FinalJoint` / `TetherJoint` markers.
  Bevy's `get_single` is modelled as `Single`.
- `chain_spec.dfy` (module `ChainSpec`) gives the resource as a value (`Info`). It gives each
  system as a pure transition, and a `Run` of any sequence of system runs. A run yields `None`
  when `extend_chain` would panic on `final_joint_entity.unwrap()`.
- `chain.dfy` (module `Chain`) is the imperative form. The resource is the class `ChainInfo`,
  with the source's fields and methods. The world is the class `EcsWorld`. The three systems
  are methods that update both objects in place. Each method is proved to produce exactly the
  state its `ChainSpec` transition gives.
- `chain_props.dfy` (module `ChainProps`) proves what the code guarantees.

Two facts about the code as written are stated as lemmas, not patched:
- `stake_entity` is read by `should_extend` but never assigned. `deploy_stake` binds only a
  local of that name and stores it in `primary_entity`. So from the default resource the chain
  never decides to extend, whatever the order of the systems and whatever the distance
  (`ReachableNeverExtends`).
- The new segment is never given the `ChainPrimary` marker. So even if a splice happened, the
  primary lookup of the next splice would fail, and so could the telemetry lookup
  (`SpliceStrandsNewPrimary`).

Facts about the code that the model keeps:
- the extension guard requires a stake handle and an unlocked chain, besides deployment, room
  for another segment, a distance above the threshold and primary and target handles;
- the only gate on a splice is `should_extend` and its three lookups;
- anchoring spawns two joints from the stake to the player, a final one and a tether;
- the splice re-points the old final joint in place and moves the `FinalJoint` marker to a
  new joint;
- the splice also needs the final joint to still carry its `FinalJoint` marker;
- `should_extend` does not check the final-joint handle. The model makes that `unwrap` a panic
  and proves that no reachable state reaches it.

## Model

| member | source | states |
|---|---|---|
| `Ecs.Single` | src/chain.rs:103-104 | `get_single` succeeds exactly when one entity matches, and then yields that entity |
| `ChainSpec.Info.ShouldExtend` | src/chain.rs:33-41 | the decision to extend: distance above the threshold, fewer segments than the maximum, stake, primary and target handles present, deployed and not locked |
| `Ecs.World.WithTransform` | src/chain.rs:100-101 | a query for a `Transform` with a marker matches exactly the entities that carry both |
| `Ecs.World.IsFinalJoint` | src/chain.rs:117 | the final-joint query finds an entity exactly when it is a joint carrying `FinalJoint` |
| `Ecs.World.PrimaryGet` | src/chain.rs:118 | the primary query finds an entity exactly when it has a transform and `ChainPrimary` and is not a final joint |
| `Ecs.World.TargetGet` | src/chain.rs:119 | the target query finds an entity exactly when it has a transform and `ChainTarget` and is not a final joint |
| `ChainSpec.Info.DeploySegment` | src/chain.rs:43-47 | one more segment, the given primary and final joint, every other handle, the lock, the maximum and the threshold kept; a count below the maximum stays within it |
| `ChainSpec.Info.DeployStake` | src/chain.rs:49-53 | deployed with a count of 0 and the given final joint; the lock, the stake, primary and target handles, the maximum and the threshold kept |
| `ChainSpec.LookupsSucceed` | src/chain.rs:122-130 | when the three lookups of a splice succeed, the primary and the target carry a transform and their markers, the final-joint handle names a `FinalJoint`, and neither the primary nor the target is that joint |
| `ChainSpec.Default` | src/chain.rs:56-73 | the default resource does not decide to extend and its count is within its maximum |
| `ChainSpec.ExtendChain` | src/chain.rs:112-180 | the splice either leaves the state unchanged, or its guard and its three lookups held and the count rose by exactly one |
| `ChainSpec.Anchor` | src/chain.rs:191-235 | anchoring leaves the chain deployed with no segments, the player as target and marked ChainTarget, and three fresh entity ids used |
| `ChainSpec.DeployStake` | src/chain.rs:182-238 | deployment either leaves the state unchanged, or the chain was not deployed, the key was just pressed, and the chain is now deployed |
| `ChainSpec.Step` | src/chain.rs:98-238 | one system run; it panics exactly when the splice runs with the guard true and no final-joint handle; telemetry never changes the world |
| `ChainSpec.Run` | src/chain.rs:7-238 | any schedule of system runs that does not panic leaves the stake handle, the lock, the maximum and the threshold as they were |
| `ChainSpec.HandleChainInfo` | src/chain.rs:98-110 | telemetry changes no field but the distance; the distance changes only when the primary and target queries each match exactly one entity, and then it becomes the measured distance |
| `Chain.HandleChainInfo` | src/chain.rs:98-110 | the system updates the resource in place exactly as the telemetry transition says, and leaves the world alone |
| `Chain.ChainInfo.constructor` | src/chain.rs:56-73 | the default resource: not deployed, unlocked, 0 of 10 segments, distance 0, threshold 0.25, rest length 1, tether length 20, every handle absent |
| `Chain.ChainInfo.ShouldExtend` | src/chain.rs:33-41 | the resource decides to extend exactly when it is deployed and unlocked, has room for another segment, holds stake, primary and target handles, and the distance exceeds the threshold |
| `Chain.ChainInfo.DeploySegment` | src/chain.rs:43-47 | sets the primary and final-joint handles to its arguments and adds exactly one to the segment count; every other field is unchanged |
| `Chain.ChainInfo.DeployStake` | src/chain.rs:49-53 | sets deployed, resets the segment count to 0 and records the final joint; every other field is unchanged |
| `Chain.EcsWorld.Spawn` | src/chain.rs:137-233 | each `commands.spawn` (segment, final joints, stake, tether) reserves the next entity id and changes nothing else |
| `Chain.ExtendChain` | src/chain.rs:112-180 | the system updates resource and world in place exactly as the splice transition says |
| `Chain.DeployStake` | src/chain.rs:182-238 | the system updates resource and world in place exactly as the deployment transition says |
| `Chain.Anchor` | src/chain.rs:191-235 | once the key press is accepted, resource and world become the anchored state |
| `ChainProps.SpliceEffect` | src/chain.rs:131-177 | a splice that passes its guard and lookups spawns a fresh segment and a fresh final joint; the old final joint ends at the segment and is no longer final; the new final joint runs from segment to target; every other joint and the tether set are unchanged; the old primary loses ChainPrimary and the segment never gets it; the count grows by one, the primary and final handles move, and every other field of the resource is as it was |
| `ChainProps.SplicePreservesChainShape` | src/chain.rs:161-177 | after a splice exactly one joint is final, and it runs from the new growing end to the target |
| `ChainProps.SpliceSkips` | src/chain.rs:121-130 | if the guard is false or any of the three lookups fails, the resource and the world are unchanged; this covers before deployment, locked, no stake handle, distance at or below the threshold, and counter at its maximum |
| `ChainProps.SpliceKeepsSegmentBound` | src/chain.rs:33-47 | a splice never lowers the count, raises it by at most one, never pushes it past the maximum, and leaves the maximum alone |
| `ChainProps.SpliceStrandsNewPrimary` | src/chain.rs:137-161 | after a splice a second splice does nothing; and if the old primary was the only ChainPrimary, telemetry no longer refreshes the distance |
| `ChainProps.DeployStakeGuard` | src/chain.rs:189-190 | deployment does nothing unless exactly one player has a transform, the chain is not deployed and the key was just pressed; otherwise it anchors at that player |
| `ChainProps.AnchorEffect` | src/chain.rs:191-235 | anchoring spawns a fresh stake that becomes the primary and makes the player the target; it adds exactly two joints from stake to player, one final and one tether; it touches no other joint and no player marker, resets the count, and leaves every other field of the resource as it was, the stake handle among them |
| `ChainProps.DeployedIgnoresTriggers` | src/chain.rs:190 | once deployed, any number of further deployment runs leave the state as it is |
| `ChainProps.DeployStakeIdempotent` | src/chain.rs:190-235 | a second key press after a first changes nothing |
| `ChainProps.InitialInv` | src/chain.rs:56-73 | the default resource over a world without chain joints satisfies the invariant |
| `ChainProps.StepPreservesInv` | src/chain.rs:98-238 | each of the three systems keeps the invariant and none of them panics |
| `ChainProps.RunPreservesInv` | src/chain.rs:7-238 | any sequence of system runs, in any order, keeps the invariant and never panics |
| `ChainProps.ReachableNeverExtends` | src/chain.rs:33-41 | from the default resource the stake handle stays absent, so `should_extend` is never true and the count stays 0; once deployed, exactly one final joint runs from the growing end to the target |

## Left out

- Geometry is not modelled: the Euclidean distance, the spawn offset along the primary-to-target direction, and the rest length's use in it (src/chain.rs:105-107, 131-135). The distance is a real number supplied by the environment for each telemetry run.
- Single-precision arithmetic is not modelled. Distances and the threshold are exact reals, and a NaN distance is not considered.
- Rendering and physics components are not modelled: meshes, materials, scenes, colliders, friction, collision layers, rigid-body kinds, sensors, names, and the `Stake`/`Segment` markers, which nothing queries. Joint limits, local anchors and compliance are dropped too; a joint keeps only its end points and its final/tether markers.
- Bevy plumbing is not modelled: plugin registration, deferred `Commands` application and system scheduling (src/chain.rs:7-13). Each system runs as one atomic step. The scheduler may run the three systems in any order, so `Run` accepts any sequence of them.
- `deployed_segments` is a `usize` in the source. The model uses an unbounded natural. Overflow cannot happen, because the guard keeps the count below `max_segments`.
- `ChainInfo` derives `Reflect` and is registered for reflection (src/chain.rs:9, 15-16), so an editor could write any field, `stake_entity` and `locked` among them, at run time. `Run` and `ReachableNeverExtends` hold only while the three systems are the only writers of the resource.
- Entities are never despawned, so a lookup fails only for a missing marker or a missing transform.
- The key press is a parameter of `DeployStake`; how input is polled is left out. The player is found by `Single` over the world.
- src/main.rs is not part of this model. It is an earlier prototype with physics setup, movement and a stubbed `handle_wire_length`/`recall_wire`.
- src/player.rs is not part of this model. It maps input to a movement direction through a character-controller crate.
