/**
 * Sequences of user actions and what holds across them: every action keeps
 * the game consistent, a finished game stays finished until a restart, and
 * the single-use actions are idempotent.
 */
module Runs {
  import opened Grid
  import opened Rules

  /** One user action: the four arrow buttons, the three action buttons, and Restart with the layout setup drew. */
  datatype Action =
    | MoveBy(dx: int, dy: int)
    | PickUp
    | Shoot
    | Sense
    | Restart(gold: Cell, wumpus: Cell, pits: seq<Cell>)

  /** Restart only ever comes with a layout that setup can produce. */
  predicate Drawable(a: Action) {
    a.Restart? ==> LayoutOk(a.gold, a.wumpus, a.pits)
  }

  function Apply(s: GameState, a: Action): GameState
    requires Drawable(a)
  {
    match a
    case MoveBy(dx, dy) => Moved(s, dx, dy)
    case PickUp => PickedUp(s)
    case Shoot => Shot(s)
    case Sense => Sensed(s)
    case Restart(gold, wumpus, pits) => Restarted(gold, wumpus, pits)
  }

  function Run(s: GameState, actions: seq<Action>): GameState
    requires forall i :: 0 <= i < |actions| ==> Drawable(actions[i])
    decreases |actions|
  {
    if actions == [] then s else Run(Apply(s, actions[0]), actions[1..])
  }

  /** What a layout from setup means cell by cell. */
  lemma LayoutCells(gold: Cell, wumpus: Cell, pits: seq<Cell>)
    requires LayoutOk(gold, wumpus, pits)
    ensures InBounds(gold) && InBounds(wumpus) && forall p :: p in pits ==> InBounds(p)
    ensures gold != Start && wumpus != Start && Start !in pits
    ensures gold != wumpus && gold !in pits && wumpus !in pits
  {
    var placed := Placed(gold, wumpus, pits);
    assert placed[0] == gold && placed[1] == wumpus;
    forall p | p in pits ensures p in placed && p != gold && p != wumpus {
      var k :| 0 <= k < |pits| && pits[k] == p;
      assert placed[k + 2] == p;
    }
  }

  /** Every action keeps the game consistent. */
  lemma ApplyKeepsConsistent(s: GameState, a: Action)
    requires Consistent(s) && Drawable(a)
    ensures Consistent(Apply(s, a))
  {
    match a
    case MoveBy(dx, dy) =>
      var t := Moved(s, dx, dy);
      if s.status == Playing {
        assert Eaten(t) <==> s.wumpusAlive && t.agent == s.wumpus;
      }
    case PickUp =>
    case Shoot =>
    case Sense =>
    case Restart(gold, wumpus, pits) =>
  }

  /** Any run of actions from a consistent state ends in a consistent state. */
  lemma {:induction false} RunKeepsConsistent(s: GameState, actions: seq<Action>)
    requires Consistent(s)
    requires forall i :: 0 <= i < |actions| ==> Drawable(actions[i])
    ensures Consistent(Run(s, actions))
    decreases |actions|
  {
    if actions != [] {
      ApplyKeepsConsistent(s, actions[0]);
      RunKeepsConsistent(Apply(s, actions[0]), actions[1..]);
    }
  }

  /**
   * In a finished game, picking up the gold does nothing even though its
   * handler has no status check: a finished game has the agent on the
   * wumpus, on a pit or at home, and the gold is never on any of those.
   */
  lemma PickUpAfterEndIsNoOp(s: GameState)
    requires Consistent(s) && s.status != Playing
    ensures PickedUp(s) == s
  {
    LayoutCells(s.gold, s.wumpus, s.pits);
  }

  /**
   * A finished game is frozen until a restart: whatever other actions follow,
   * only the message can change.
   */
  lemma {:induction false} FinishedStaysFinished(s: GameState, actions: seq<Action>)
    requires Consistent(s) && s.status != Playing
    requires forall i :: 0 <= i < |actions| ==> Drawable(actions[i]) && !actions[i].Restart?
    ensures Run(s, actions) == s.(message := Run(s, actions).message)
    decreases |actions|
  {
    if actions != [] {
      var t := Apply(s, actions[0]);
      if actions[0] == PickUp {
        PickUpAfterEndIsNoOp(s);
      }
      assert t == s.(message := t.message);
      FinishedStaysFinished(t, actions[1..]);
    }
  }

  /** A restart always brings the game back to Playing, from any state. */
  lemma RestartLeavesTerminal(s: GameState, gold: Cell, wumpus: Cell, pits: seq<Cell>)
    requires LayoutOk(gold, wumpus, pits)
    ensures Apply(s, Restart(gold, wumpus, pits)).status == Playing
    ensures Consistent(Apply(s, Restart(gold, wumpus, pits)))
  {
  }

  /** A second shot never changes anything: the arrow is spent or the wumpus is dead. */
  lemma ShootTwice(s: GameState)
    ensures Shot(Shot(s)) == Shot(s)
  {
  }

  /** Picking up twice is picking up once. */
  lemma PickUpTwice(s: GameState)
    ensures PickedUp(PickedUp(s)) == PickedUp(s)
  {
  }

  /** Running the evaluation again right after it has run changes nothing. */
  lemma EvaluateTwice(s: GameState)
    ensures Evaluated(Evaluated(s)) == Evaluated(s)
  {
    var t := Evaluated(s);
    if s.status == Playing && t.status == Playing {
      assert Senses(t) == Senses(s) by {
        assert t == s.(percepts := t.percepts, message := t.message);
      }
      assert Judge(t) == Judge(s);
    }
  }

  /**
   * Stepping onto the gold before it is held: the game goes on, and the fresh
   * percepts include Glitter.
   */
  lemma GlitterOnGold(s: GameState, dx: int, dy: int)
    requires Consistent(s) && s.status == Playing && !s.hasGold
    requires Step(s.agent, dx, dy) == s.gold
    ensures Moved(s, dx, dy).agent == s.gold
    ensures Moved(s, dx, dy).status == Playing
    ensures Glitter in Moved(s, dx, dy).percepts
  {
    LayoutCells(s.gold, s.wumpus, s.pits);
  }

  /**
   * Picking up the gold and then stepping home wins. The pick-up alone
   * neither wins nor refreshes the percepts.
   */
  lemma PickUpThenHomeWins(s: GameState, dx: int, dy: int)
    requires Consistent(s) && s.status == Playing && s.agent == s.gold && !s.hasGold
    requires Step(s.agent, dx, dy) == Start
    ensures PickedUp(s).hasGold && PickedUp(s).status == Playing && PickedUp(s).percepts == s.percepts
    ensures Moved(PickedUp(s), dx, dy).status == Won
    ensures Moved(PickedUp(s), dx, dy).message == ReturnedWithGold
  {
    LayoutCells(s.gold, s.wumpus, s.pits);
  }

  /** Stepping into a pit loses with the pit message, and every later move is ignored. */
  lemma PitLoses(s: GameState, dx: int, dy: int)
    requires Consistent(s) && s.status == Playing
    requires Step(s.agent, dx, dy) in s.pits
    ensures Moved(s, dx, dy).status == Lost && Moved(s, dx, dy).message == FellIntoPit
    ensures forall dx', dy' :: Moved(Moved(s, dx, dy), dx', dy') == Moved(s, dx, dy)
  {
    LayoutCells(s.gold, s.wumpus, s.pits);
  }

  /**
   * Shooting the wumpus from a neighbouring cell kills it. The Stench stays in
   * the percepts until the next move; stepping onto the dead wumpus's cell is
   * then safe and gives no Stench.
   */
  lemma KillMakesWumpusCellSafe(s: GameState, dx: int, dy: int)
    requires Consistent(s) && s.status == Playing && !s.arrowUsed && s.wumpusAlive
    requires Near(s.agent, s.wumpus)
    requires Step(s.agent, dx, dy) == s.wumpus
    ensures !Shot(s).wumpusAlive && Shot(s).message == KilledWumpus
    ensures Shot(s).percepts == s.percepts
    ensures Moved(Shot(s), dx, dy).agent == s.wumpus
    ensures Moved(Shot(s), dx, dy).status == Playing
    ensures Stench !in Moved(Shot(s), dx, dy).percepts
  {
    LayoutCells(s.gold, s.wumpus, s.pits);
  }

  /** Standing on the live wumpus loses to the wumpus, even on a pit cell. */
  lemma WumpusBeforePit(s: GameState)
    requires s.status == Playing && s.wumpusAlive && s.agent == s.wumpus && s.agent in s.pits
    ensures Evaluated(s).status == Lost && Evaluated(s).message == EatenByWumpus
  {
  }
}
