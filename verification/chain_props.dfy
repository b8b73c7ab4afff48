/** What the tether systems guarantee: the effect of a splice and of anchoring, the cases
    in which they do nothing, and the invariant every reachable state keeps. */
module ChainProps {
  import opened Ecs
  import opened ChainSpec

  /** A deployed chain whose only final joint runs from the growing end to the target. */
  ghost predicate ChainShape(s: State) {
    var i, w := s.info, s.world;
    i.deployed && i.primaryEntity.Some? && i.targetEntity.Some? && i.finalJointEntity.Some?
    && w.FinalJoints() == {i.finalJointEntity.value}
    && w.joints[i.finalJointEntity.value].entity1 == i.primaryEntity.value
    && w.joints[i.finalJointEntity.value].entity2 == i.targetEntity.value
  }

  /** The invariant of every state reachable from the default resource: no stake handle,
      no segments, and once deployed one final joint and one tether joint, both from the
      growing end to the target. */
  ghost predicate Inv(s: State) {
    var i, w := s.info, s.world;
    w.Valid()
    && i.stakeEntity.None?
    && i.deployedSegments == 0
    && (!i.deployed ==>
          i.primaryEntity.None? && i.targetEntity.None? && i.finalJointEntity.None?
          && w.FinalJoints() == {} && w.TetherJoints() == {})
    && (i.deployed ==>
          ChainShape(s)
          && |w.TetherJoints()| == 1
          && forall t :: t in w.TetherJoints() ==>
               w.joints[t] == Joint(i.primaryEntity.value, i.targetEntity.value, false, true))
  }

  // ---------------------------------------------------------------- splice

  /** A splice that passes its guard and its three lookups: the new segment and the new
      final joint get fresh ids; the old final joint now ends at the new segment and is
      no longer final; the new final joint runs from the segment to the target; every
      other joint, the tether among them, is untouched; the old primary loses its
      ChainPrimary marker and the new segment never gets one; one more segment is counted. */
  lemma SpliceEffect(s: State)
    requires s.world.Valid()
    requires s.info.ShouldExtend() && s.info.finalJointEntity.Some? && LookupsSucceed(s)
    ensures var r, w := ExtendChain(s), s.world;
            var segment, newFinal, j := w.next, w.next + 1, s.info.finalJointEntity.value;
            segment !in w.bodies && segment !in w.joints && newFinal !in w.joints
            && r.world.Valid()
            && r.world.bodies == w.bodies + {segment}
            && r.world.joints.Keys == w.joints.Keys + {newFinal}
            && r.world.joints[j] == Joint(w.joints[j].entity1, segment, false, w.joints[j].isTether)
            && r.world.joints[newFinal] == Joint(segment, s.info.targetEntity.value, true, false)
            && (forall k :: k in w.joints && k != j ==> r.world.joints[k] == w.joints[k])
            && r.world.FinalJoints() == w.FinalJoints() - {j} + {newFinal}
            && r.world.TetherJoints() == w.TetherJoints()
            && r.world.primaries == w.primaries - {s.info.primaryEntity.value}
            && segment !in r.world.primaries
            && r.world.targets == w.targets && r.world.players == w.players
            && r.info.deployedSegments == s.info.deployedSegments + 1
            && r.info.primaryEntity == Some(segment)
            && r.info.finalJointEntity == Some(newFinal)
            && r.info.targetEntity == s.info.targetEntity
            && r.info.stakeEntity == s.info.stakeEntity
            && r.info == s.info.(deployedSegments := s.info.deployedSegments + 1,
                                 primaryEntity := Some(segment), finalJointEntity := Some(newFinal))
  {
  }

  /** A splice keeps the chain's shape: exactly one final joint, from the new growing end
      to the target. */
  lemma SplicePreservesChainShape(s: State)
    requires s.world.Valid() && ChainShape(s)
    requires s.info.ShouldExtend() && LookupsSucceed(s)
    ensures ChainShape(ExtendChain(s))
    ensures ExtendChain(s).world.Valid()
  {
    SpliceEffect(s);
  }

  /** The splice does nothing, to the resource or to the world, when the guard is false
      or one of its lookups fails: before deployment, at the threshold or below it, with
      the counter at its maximum, without a stake handle, or while locked. */
  lemma SpliceSkips(s: State)
    requires s.info.ShouldExtend() ==> s.info.finalJointEntity.Some?
    ensures !s.info.ShouldExtend() || !LookupsSucceed(s) ==> ExtendChain(s) == s
    ensures !s.info.deployed || s.info.locked || s.info.stakeEntity.None? ==> ExtendChain(s) == s
    ensures s.info.distanceToTarget <= s.info.distanceThreshold ==> ExtendChain(s) == s
    ensures s.info.deployedSegments >= s.info.maxSegments ==> ExtendChain(s) == s
  {
  }

  /** The segment counter never decreases, grows by at most one, and stays within its
      maximum, which never changes. */
  lemma SpliceKeepsSegmentBound(s: State)
    requires s.info.ShouldExtend() ==> s.info.finalJointEntity.Some?
    requires s.info.deployedSegments <= s.info.maxSegments
    ensures var r := ExtendChain(s).info;
            r.maxSegments == s.info.maxSegments
            && s.info.deployedSegments <= r.deployedSegments <= s.info.deployedSegments + 1
            && r.deployedSegments <= r.maxSegments
  {
  }

  /** Because the new segment is not given the ChainPrimary marker, the lookup of the
      primary fails after a splice: a second splice does nothing, and when the old primary
      was the only entity with that marker, telemetry no longer refreshes the distance. */
  lemma SpliceStrandsNewPrimary(s: State, measured: real)
    requires s.world.Valid()
    requires s.info.ShouldExtend() && s.info.finalJointEntity.Some? && LookupsSucceed(s)
    ensures var r := ExtendChain(s);
            ExtendChain(r) == r
            && (s.world.WithTransform(s.world.primaries) == {s.info.primaryEntity.value} ==>
                  HandleChainInfo(r.info, r.world, measured) == r.info)
  {
  }

  // ---------------------------------------------------------------- deployment

  /** Deployment fires only when exactly one player has a transform, the chain is not yet
      deployed and the key was just pressed; then it anchors at that player. */
  lemma DeployStakeGuard(s: State, keyJustPressed: bool)
    ensures var player := Single(s.world.WithTransform(s.world.players));
            if player.Some? && !s.info.deployed && keyJustPressed
            then DeployStake(s, keyJustPressed) == Anchor(s, player.value)
            else DeployStake(s, keyJustPressed) == s
  {
  }

  /** Anchoring spawns a fresh stake that becomes the primary, makes the player the target,
      adds exactly two joints from the stake to the player, a final one and a tether, and
      leaves every other joint alone; the counter is reset and the stake handle is left
      as it was. */
  lemma AnchorEffect(s: State, player: Entity)
    requires s.world.Valid() && player < s.world.next
    ensures var r, w := Anchor(s, player), s.world;
            var stake, finalJoint, tether := w.next, w.next + 1, w.next + 2;
            stake !in w.bodies && stake !in w.joints
            && finalJoint !in w.joints && tether !in w.joints
            && r.world.Valid()
            && r.info.deployed && r.info.deployedSegments == 0
            && r.info.primaryEntity == Some(stake) && r.info.targetEntity == Some(player)
            && r.info.finalJointEntity == Some(finalJoint)
            && r.info.stakeEntity == s.info.stakeEntity
            && r.world.bodies == w.bodies + {stake}
            && r.world.primaries == w.primaries + {stake}
            && r.world.targets == w.targets + {player}
            && r.world.players == w.players
            && r.info == s.info.(deployed := true, deployedSegments := 0, primaryEntity := Some(stake),
                                 targetEntity := Some(player), finalJointEntity := Some(finalJoint))
            && r.world.joints.Keys == w.joints.Keys + {finalJoint, tether}
            && r.world.joints[finalJoint] == Joint(stake, player, true, false)
            && r.world.joints[tether] == Joint(stake, player, false, true)
            && (forall k :: k in w.joints ==> r.world.joints[k] == w.joints[k])
            && r.world.FinalJoints() == w.FinalJoints() + {finalJoint}
            && r.world.TetherJoints() == w.TetherJoints() + {tether}
  {
  }

  /** Once deployed, any number of further deployment runs leave the state as it is. */
  lemma {:induction false} DeployedIgnoresTriggers(s: State, es: seq<Event>)
    requires s.info.deployed
    requires forall i :: 0 <= i < |es| ==> es[i].Deploy?
    ensures Run(s, es) == Some(s)
  {
    if es != [] {
      assert Step(s, es[0]) == Some(s);
      DeployedIgnoresTriggers(s, es[1..]);
    }
  }

  /** Pressing the key again after a press changes nothing. */
  lemma DeployStakeIdempotent(s: State, keyJustPressed: bool)
    ensures DeployStake(DeployStake(s, true), keyJustPressed) == DeployStake(s, true)
  {
  }

  // ---------------------------------------------------------------- reachability

  /** The default resource over a world that has never held a tether satisfies the invariant. */
  lemma InitialInv(w: World)
    requires InitialWorld(w)
    ensures Inv(State(Default(), w))
  {
  }

  /** Every system run keeps the invariant, and none of them panics. */
  lemma StepPreservesInv(s: State, e: Event)
    requires Inv(s)
    ensures Step(s, e).Some? && Inv(Step(s, e).value)
  {
    match e
    case Telemetry(d) =>
    case Extend =>
      SpliceSkips(s);
    case Deploy(k) =>
      var player := Single(s.world.WithTransform(s.world.players));
      DeployStakeGuard(s, k);
      if player.Some? && !s.info.deployed && k {
        assert player.value in s.world.players;
        AnchorEffect(s, player.value);
        var r := Anchor(s, player.value);
        assert r.world.TetherJoints() == {s.world.next + 2};
      }
  }

  lemma {:induction false} RunPreservesInv(s: State, es: seq<Event>)
    requires Inv(s)
    ensures Run(s, es).Some? && Inv(Run(s, es).value)
    decreases |es|
  {
    if es != [] {
      StepPreservesInv(s, es[0]);
      RunPreservesInv(Step(s, es[0]).value, es[1..]);
    }
  }

  /** From the default resource, whatever the order of the systems and whatever the
      environment supplies, nothing panics, the stake handle stays absent, so the chain
      never decides to extend and no segment is ever spliced; once deployed, exactly one
      final joint runs from the growing end to the target. */
  lemma ReachableNeverExtends(w: World, es: seq<Event>)
    requires InitialWorld(w)
    ensures var r := Run(State(Default(), w), es);
            r.Some?
            && r.value.info.stakeEntity.None?
            && !r.value.info.ShouldExtend()
            && r.value.info.deployedSegments == 0
            && (r.value.info.deployed ==> ChainShape(r.value))
  {
    InitialInv(w);
    RunPreservesInv(State(Default(), w), es);
  }
}
