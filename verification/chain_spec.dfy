/** The tether logic of `ChainInfo` and its three systems as pure transitions over
    values: the specification the imperative model in module `Chain` is proved against. */
module ChainSpec {
  import opened Ecs

  /** The `ChainInfo` resource. Distances are reals supplied by the environment. */
  datatype Info = Info(
    deployed: bool,
    locked: bool,
    deployedSegments: nat,
    maxSegments: nat,
    distanceToTarget: real,
    distanceThreshold: real,
    restLength: real,
    maxDistance: real,
    finalJointEntity: Option<Entity>,
    stakeEntity: Option<Entity>,
    primaryEntity: Option<Entity>,
    targetEntity: Option<Entity>)
  {
    /** The decision to grow the chain by one segment this tick. */
    predicate ShouldExtend() {
      distanceToTarget > distanceThreshold
      && deployedSegments < maxSegments
      && stakeEntity.Some?
      && primaryEntity.Some?
      && targetEntity.Some?
      && deployed
      && !locked
    }

    /** Record a spliced segment as the new growing end and its joint as the final one. */
    function DeploySegment(primary: Entity, finalJoint: Entity): (r: Info)
      ensures deployedSegments < maxSegments ==> r.deployedSegments <= r.maxSegments
      ensures r.deployedSegments == deployedSegments + 1
      ensures r.primaryEntity == Some(primary) && r.finalJointEntity == Some(finalJoint)
      ensures r.deployed == deployed && r.locked == locked && r.stakeEntity == stakeEntity
              && r.targetEntity == targetEntity && r.maxSegments == maxSegments
              && r.distanceThreshold == distanceThreshold
    {
      this.(primaryEntity := Some(primary), finalJointEntity := Some(finalJoint),
            deployedSegments := deployedSegments + 1)
    }

    /** Record that the stake is down, with its first joint as the final one. */
    function DeployStake(finalJoint: Entity): (r: Info)
      ensures r.deployed && r.deployedSegments == 0 && r.deployedSegments <= r.maxSegments
      ensures r.finalJointEntity == Some(finalJoint)
      ensures r.locked == locked && r.stakeEntity == stakeEntity && r.primaryEntity == primaryEntity
              && r.targetEntity == targetEntity && r.maxSegments == maxSegments
              && r.distanceThreshold == distanceThreshold
    {
      this.(deployed := true, deployedSegments := 0, finalJointEntity := Some(finalJoint))
    }
  }

  /** The resource as the plugin inserts it. */
  function Default(): (r: Info)
    ensures !r.ShouldExtend() && r.deployedSegments <= r.maxSegments
  {
    Info(false, false, 0, 10, 0.0, 0.25, 1.0, 20.0, None, None, None, None)
  }

  datatype State = State(info: Info, world: World)

  /** Telemetry: `measured` is the distance between the transforms of the primary and the
      target this tick. It is stored only when both queries match exactly one entity. */
  ghost function HandleChainInfo(info: Info, w: World, measured: real): (r: Info)
    ensures r == info.(distanceToTarget := r.distanceToTarget)
    ensures r.distanceToTarget != info.distanceToTarget ==>
              Single(w.WithTransform(w.primaries)).Some? && Single(w.WithTransform(w.targets)).Some?
    ensures Single(w.WithTransform(w.primaries)).Some? && Single(w.WithTransform(w.targets)).Some? ==>
              r.distanceToTarget == measured
  {
    if |w.WithTransform(w.primaries)| == 1 && |w.WithTransform(w.targets)| == 1 then
      info.(distanceToTarget := measured)
    else
      info
  }

  /** Whether the three lookups at the head of a splice all succeed. */
  predicate LookupsSucceed(s: State)
    requires s.info.ShouldExtend() && s.info.finalJointEntity.Some?
    ensures LookupsSucceed(s) ==>
              s.info.primaryEntity.value in s.world.WithTransform(s.world.primaries)
              && s.info.targetEntity.value in s.world.WithTransform(s.world.targets)
              && s.info.finalJointEntity.value in s.world.FinalJoints()
              && s.info.primaryEntity.value != s.info.finalJointEntity.value
              && s.info.targetEntity.value != s.info.finalJointEntity.value
  {
    s.world.PrimaryGet(s.info.primaryEntity.value)
    && s.world.TargetGet(s.info.targetEntity.value)
    && s.world.IsFinalJoint(s.info.finalJointEntity.value)
  }

  /** The splice. A new segment body is spawned; the ChainPrimary marker leaves the old
      primary; the final joint is re-pointed at the new segment and loses its FinalJoint
      marker; a new final joint from the new segment to the target is spawned. The caller
      must not reach the unwrap of an absent final joint. */
  function ExtendChain(s: State): (r: State)
    requires s.info.ShouldExtend() ==> s.info.finalJointEntity.Some?
    ensures r == s || (s.info.ShouldExtend() && LookupsSucceed(s)
                       && r.info.deployedSegments == s.info.deployedSegments + 1)
  {
    if !s.info.ShouldExtend() || !LookupsSucceed(s) then s
    else
      var w := s.world;
      var primary, target, finalJoint := s.info.primaryEntity.value, s.info.targetEntity.value,
                                         s.info.finalJointEntity.value;
      var segment := w.next;
      var newFinal := w.next + 1;
      var w' := w.(
        next := w.next + 2,
        bodies := w.bodies + {segment},
        primaries := w.primaries - {primary},
        joints := w.joints[finalJoint := w.joints[finalJoint].(entity2 := segment, isFinal := false)]
                          [newFinal := Joint(segment, target, true, false)]);
      State(s.info.DeploySegment(segment, newFinal), w')
  }

  /** Anchor the chain at `player`: spawn a stake at the player, carrying ChainPrimary;
      mark the player ChainTarget; spawn two joints from the stake to the player, the
      final one and the tether; record the stake as primary and the player as target. */
  function Anchor(s: State, player: Entity): (r: State)
    ensures r.info.deployed && r.info.deployedSegments == 0
    ensures r.info.targetEntity == Some(player) && r.world.targets == s.world.targets + {player}
    ensures r.world.next == s.world.next + 3
  {
    var w := s.world;
    var stake, finalJoint, tether := w.next, w.next + 1, w.next + 2;
    var w' := w.(
      next := w.next + 3,
      bodies := w.bodies + {stake},
      primaries := w.primaries + {stake},
      targets := w.targets + {player},
      joints := w.joints[finalJoint := Joint(stake, player, true, false)]
                        [tether := Joint(stake, player, false, true)]);
    var info' := s.info.(deployed := true, primaryEntity := Some(stake), targetEntity := Some(player));
    State(info'.DeployStake(finalJoint), w')
  }

  /** Stake deployment: when exactly one player has a transform, the chain is not yet
      deployed and the activation key was just pressed, anchor the chain at that player. */
  ghost function DeployStake(s: State, keyJustPressed: bool): (r: State)
    ensures r == s || (!s.info.deployed && keyJustPressed && r.info.deployed)
  {
    match Single(s.world.WithTransform(s.world.players))
    case None => s
    case Some(player) =>
      if s.info.deployed || !keyJustPressed then s else Anchor(s, player)
  }

  /** One run of one of the three systems, in whatever order the scheduler picks. */
  datatype Event = Telemetry(measured: real) | Extend | Deploy(keyJustPressed: bool)

  /** The state after a system runs, or None when it panics on an absent final joint. */
  ghost function Step(s: State, e: Event): (r: Option<State>)
    ensures r.None? <==> e.Extend? && s.info.ShouldExtend() && s.info.finalJointEntity.None?
    ensures e.Telemetry? ==> r.Some? && r.value.world == s.world
  {
    match e
    case Telemetry(d) => Some(s.(info := HandleChainInfo(s.info, s.world, d)))
    case Extend =>
      if s.info.ShouldExtend() && s.info.finalJointEntity.None? then None
      else Some(ExtendChain(s))
    case Deploy(k) => Some(DeployStake(s, k))
  }

  /** The state after a sequence of system runs, or None if one of them panics. No
      schedule ever writes the stake handle, the lock or the configuration. */
  ghost function Run(s: State, es: seq<Event>): (r: Option<State>)
    ensures r.Some? ==> r.value.info.stakeEntity == s.info.stakeEntity
                        && r.value.info.locked == s.info.locked
                        && r.value.info.maxSegments == s.info.maxSegments
                        && r.value.info.distanceThreshold == s.info.distanceThreshold
    decreases |es|
  {
    if es == [] then Some(s)
    else
      match Step(s, es[0])
      case None => None
      case Some(s') => Run(s', es[1..])
  }

  /** A world before the tether is ever deployed: ids are consistent and no joint carries
      a FinalJoint or TetherJoint marker. */
  ghost predicate InitialWorld(w: World) {
    w.Valid() && w.FinalJoints() == {} && w.TetherJoints() == {}
  }
}
