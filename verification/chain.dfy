/** The `ChainInfo` resource and the world as objects updated in place, and the three
    systems of the chain plugin as methods over them. Each system runs as one atomic step:
    the commands it queues are applied before the next system runs. */
module Chain {
  import opened Ecs
  import ChainSpec

  class ChainInfo {
    var deployed: bool
    var locked: bool
    var deployedSegments: nat
    var maxSegments: nat
    var distanceToTarget: real
    var distanceThreshold: real
    var restLength: real
    var maxDistance: real
    var finalJointEntity: Option<Entity>
    var stakeEntity: Option<Entity>
    var primaryEntity: Option<Entity>
    var targetEntity: Option<Entity>

    /** The resource as a value. */
    function View(): ChainSpec.Info
      reads this
    {
      ChainSpec.Info(deployed, locked, deployedSegments, maxSegments, distanceToTarget,
                     distanceThreshold, restLength, maxDistance, finalJointEntity,
                     stakeEntity, primaryEntity, targetEntity)
    }

    /** The default resource: not deployed, unlocked, no segments out of ten, threshold
        0.25, rest length 1, tether length 20, and no handles. */
    constructor ()
      ensures !deployed && !locked && deployedSegments == 0 && maxSegments == 10
      ensures distanceToTarget == 0.0 && distanceThreshold == 0.25
      ensures restLength == 1.0 && maxDistance == 20.0
      ensures finalJointEntity == None && stakeEntity == None
      ensures primaryEntity == None && targetEntity == None
      ensures View() == ChainSpec.Default()
    {
      deployed, locked := false, false;
      deployedSegments, maxSegments := 0, 10;
      distanceToTarget, distanceThreshold := 0.0, 0.25;
      restLength, maxDistance := 1.0, 20.0;
      finalJointEntity, stakeEntity, primaryEntity, targetEntity := None, None, None, None;
    }

    /** `should_extend`: the chain is deployed and unlocked, has room for another segment,
        holds stake, primary and target handles, and the target is beyond the threshold. */
    predicate ShouldExtend()
      reads this
      ensures ShouldExtend() <==> deployed && !locked && deployedSegments < maxSegments
                                  && distanceToTarget > distanceThreshold
                                  && stakeEntity.Some? && primaryEntity.Some? && targetEntity.Some?
      ensures !deployed || locked || stakeEntity.None? ==> !ShouldExtend()
    {
      View().ShouldExtend()
    }

    /** One more segment, which becomes the growing end, with its joint as the final one;
        every other field is left as it was. */
    method DeploySegment(primary: Entity, finalJoint: Entity)
      modifies this
      ensures primaryEntity == Some(primary) && finalJointEntity == Some(finalJoint)
      ensures deployedSegments == old(deployedSegments) + 1
      ensures View() == old(View()).DeploySegment(primary, finalJoint)
    {
      primaryEntity := Some(primary);
      finalJointEntity := Some(finalJoint);
      deployedSegments := deployedSegments + 1;
    }

    /** Deployed, with no segments and the given final joint; every other field is left as it was. */
    method DeployStake(finalJoint: Entity)
      modifies this
      ensures deployed && deployedSegments == 0 && finalJointEntity == Some(finalJoint)
      ensures View() == old(View()).DeployStake(finalJoint)
    {
      deployed := true;
      deployedSegments := 0;
      finalJointEntity := Some(finalJoint);
    }
  }

  /** The entities, markers and joints of the world that the systems touch. */
  class EcsWorld {
    var next: Entity
    var bodies: set<Entity>
    var players: set<Entity>
    var primaries: set<Entity>
    var targets: set<Entity>
    var joints: map<Entity, Joint>

    /** The world as a value. */
    function View(): World
      reads this
    {
      World(next, bodies, players, primaries, targets, joints)
    }

    /** Reserve a fresh entity id, as spawning through commands does. */
    method Spawn() returns (e: Entity)
      modifies this`next
      ensures e == old(next) && next == old(next) + 1
      ensures View() == old(View()).(next := e + 1)
    {
      e := next;
      next := next + 1;
    }
  }

  /** `handle_chain_info`: refresh the distance when the primary and the target each
      resolve to exactly one entity with a transform. */
  method HandleChainInfo(info: ChainInfo, world: EcsWorld, measured: real)
    modifies info
    ensures info.View() == ChainSpec.HandleChainInfo(old(info.View()), world.View(), measured)
  {
    if |world.primaries * world.bodies| == 1 && |world.targets * world.bodies| == 1 {
      info.distanceToTarget := measured;
    }
  }

  /** `extend_chain`: splice a new segment between the growing end and the target. */
  method ExtendChain(info: ChainInfo, world: EcsWorld)
    requires info.ShouldExtend() ==> info.finalJointEntity.Some?
    modifies info, world
    ensures ChainSpec.State(info.View(), world.View())
         == ChainSpec.ExtendChain(old(ChainSpec.State(info.View(), world.View())))
  {
    if info.ShouldExtend() {
      var primary, target, finalJoint :=
        info.primaryEntity.value, info.targetEntity.value, info.finalJointEntity.value;
      if world.View().PrimaryGet(primary) && world.View().TargetGet(target)
         && world.View().IsFinalJoint(finalJoint) {
        var segment := world.Spawn();
        world.bodies := world.bodies + {segment};
        world.primaries := world.primaries - {primary};
        world.joints := world.joints[finalJoint := world.joints[finalJoint].(entity2 := segment, isFinal := false)];
        var newFinal := world.Spawn();
        world.joints := world.joints[newFinal := Joint(segment, target, true, false)];
        info.DeploySegment(segment, newFinal);
      }
    }
  }

  /** `deploy_stake`: on the activation key, anchor the chain at the single player. */
  method DeployStake(info: ChainInfo, world: EcsWorld, keyJustPressed: bool)
    modifies info, world
    ensures ChainSpec.State(info.View(), world.View())
         == ChainSpec.DeployStake(old(ChainSpec.State(info.View(), world.View())), keyJustPressed)
  {
    var players := world.players * world.bodies;
    if |players| == 1 {
      var player :| player in players;
      assert Single(world.View().WithTransform(world.players)) == Some(player);
      if !info.deployed && keyJustPressed {
        Anchor(info, world, player);
      }
    }
  }

  /** The body of `deploy_stake` once the key press is accepted. */
  method Anchor(info: ChainInfo, world: EcsWorld, player: Entity)
    modifies info, world
    ensures ChainSpec.State(info.View(), world.View())
         == ChainSpec.Anchor(old(ChainSpec.State(info.View(), world.View())), player)
  {
    info.deployed := true;
    var stake := world.Spawn();
    world.bodies := world.bodies + {stake};
    world.primaries := world.primaries + {stake};
    world.targets := world.targets + {player};
    info.primaryEntity := Some(stake);
    info.targetEntity := Some(player);
    var finalJoint := world.Spawn();
    world.joints := world.joints[finalJoint := Joint(stake, player, true, false)];
    var tether := world.Spawn();
    world.joints := world.joints[tether := Joint(stake, player, false, true)];
    info.DeployStake(finalJoint);
  }
}
