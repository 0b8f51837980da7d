/**
 * The game state of Wumpus World as a value, and the effect of each user
 * action on it. These functions are the specification the `Game` class is
 * proved against: every handler of the class leaves behind exactly the state
 * that the matching function here computes.
 */
module Rules {
  import opened Grid

  datatype Percept = Glitter | Stench | Breeze

  datatype Status = Playing | Won | Lost

  /** The message line of the game, one constructor per message the game can show. */
  datatype Message =
    | NoMessage
    | EatenByWumpus
    | FellIntoPit
    | ReturnedWithGold
    | PickedUpGold
    | KilledWumpus
    | MissedWumpus
    | NothingSensed
    | YouSense(sensed: seq<Percept>)

  /** Every field of the game, as the component holds them. */
  datatype GameState = GameState(
    agent: Cell,
    gold: Cell,
    hasGold: bool,
    wumpus: Cell,
    wumpusAlive: bool,
    pits: seq<Cell>,
    arrowUsed: bool,
    percepts: seq<Percept>,
    status: Status,
    message: Message)

  /** The position of each percept in the list the evaluator builds. */
  function Rank(p: Percept): nat {
    match p
    case Glitter => 0
    case Stench => 1
    case Breeze => 2
  }

  predicate BreezeAt(agent: Cell, pits: seq<Cell>) {
    exists p :: p in pits && Near(agent, p)
  }

  /**
   * The percepts at the agent's cell: Glitter on uncollected gold, Stench next
   * to the live wumpus, Breeze next to a pit. Each appears at most once, in
   * that order.
   */
  function Senses(s: GameState): (ps: seq<Percept>)
    ensures Glitter in ps <==> s.agent == s.gold && !s.hasGold
    ensures Stench in ps <==> s.wumpusAlive && Near(s.agent, s.wumpus)
    ensures Breeze in ps <==> BreezeAt(s.agent, s.pits)
    ensures forall i, j :: 0 <= i < j < |ps| ==> Rank(ps[i]) < Rank(ps[j])
  {
    (if !s.hasGold && s.agent == s.gold then [Glitter] else []) +
    (if s.wumpusAlive && Near(s.agent, s.wumpus) then [Stench] else []) +
    (if BreezeAt(s.agent, s.pits) then [Breeze] else [])
  }

  /** What the outcome check decides: the game goes on, or it ends with a status and a message. */
  datatype Verdict = Continue | Ends(status: Status, message: Message)

  /** The live wumpus is on the agent's cell. */
  predicate Eaten(s: GameState) {
    s.wumpusAlive && s.agent == s.wumpus
  }

  /**
   * The outcome check, by priority: the live wumpus first, then a pit, then
   * coming home with the gold.
   */
  function Judge(s: GameState): (v: Verdict)
    ensures v.Ends? ==> v.status != Playing
    ensures (v.Ends? && v.status == Lost) <==> Eaten(s) || s.agent in s.pits
    ensures v == Ends(Lost, EatenByWumpus) <==> Eaten(s)
    ensures v.Ends? && v.status == Lost && !Eaten(s) ==> v.message == FellIntoPit
    ensures (v.Ends? && v.status == Won) <==> !Eaten(s) && s.agent !in s.pits && s.hasGold && s.agent == Start
    ensures v.Ends? && v.status == Won ==> v.message == ReturnedWithGold
  {
    if Eaten(s) then Ends(Lost, EatenByWumpus)
    else if s.agent in s.pits then Ends(Lost, FellIntoPit)
    else if s.hasGold && s.agent == Start then Ends(Won, ReturnedWithGold)
    else Continue
  }

  /** Everything but the percepts, the status and the message (the fields the evaluation writes). */
  predicate SameWorld(s: GameState, t: GameState) {
    t.agent == s.agent && t.gold == s.gold && t.hasGold == s.hasGold &&
    t.wumpus == s.wumpus && t.wumpusAlive == s.wumpusAlive && t.pits == s.pits &&
    t.arrowUsed == s.arrowUsed
  }

  /**
   * The evaluation that follows every change of the agent's position: it
   * rebuilds the percepts from scratch and applies the outcome check. Once the
   * game is over it does nothing.
   */
  function Evaluated(s: GameState): (t: GameState)
    ensures s.status != Playing ==> t == s
    ensures SameWorld(s, t)
    ensures s.status == Playing ==> t.percepts == Senses(s)
    ensures s.status == Playing && Judge(s).Continue? ==> t.status == Playing && t.message == s.message
    ensures s.status == Playing && Judge(s).Ends? ==> t.status == Judge(s).status && t.message == Judge(s).message
  {
    if s.status != Playing then s
    else
      var s' := s.(percepts := Senses(s));
      match Judge(s)
      case Continue => s'
      case Ends(status, message) => s'.(status := status, message := message)
  }

  /**
   * A move by (dx, dy): ignored once the game is over; otherwise the agent
   * steps, clamped to the board, and the evaluation runs (also when the clamp
   * leaves the agent where it was).
   */
  function Moved(s: GameState, dx: int, dy: int): (t: GameState)
    ensures s.status != Playing ==> t == s
    ensures s.status == Playing ==> t.agent == Step(s.agent, dx, dy)
    ensures s.status == Playing ==> InBounds(t.agent)
    ensures s.status == Playing && InBounds(s.agent) ==>
      Gap(t.agent.x, s.agent.x) <= Abs(dx) && Gap(t.agent.y, s.agent.y) <= Abs(dy)
    ensures s.status == Playing ==> t.percepts == Senses(s.(agent := t.agent))
    ensures s.status == Playing ==> (t.status == Lost <==> (s.wumpusAlive && t.agent == s.wumpus) || t.agent in s.pits)
    ensures s.status == Playing ==> (t.status == Won <==> t.status != Lost && s.hasGold && t.agent == Start)
    ensures s.status == Playing ==>
      t.message == (if Judge(s.(agent := t.agent)).Ends? then Judge(s.(agent := t.agent)).message else s.message)
    ensures t.gold == s.gold && t.hasGold == s.hasGold && t.wumpus == s.wumpus &&
      t.wumpusAlive == s.wumpusAlive && t.pits == s.pits && t.arrowUsed == s.arrowUsed
  {
    if s.status != Playing then s
    else Evaluated(s.(agent := Step(s.agent, dx, dy)))
  }

  /**
   * Picking up the gold: takes effect only on the gold's cell while the gold
   * is not yet held. The handler itself does not look at the status, and it
   * does not run the evaluation, so Glitter stays in the percepts until the
   * next move.
   */
  function PickedUp(s: GameState): (t: GameState)
    ensures t.hasGold <==> s.hasGold || s.agent == s.gold
    ensures t.hasGold != s.hasGold ==> t.message == PickedUpGold
    ensures t.hasGold == s.hasGold ==> t == s
    ensures t == s.(hasGold := t.hasGold, message := t.message)
  {
    if s.agent == s.gold && !s.hasGold then s.(hasGold := true, message := PickedUpGold)
    else s
  }

  /**
   * Shooting the one arrow: ignored once the arrow is spent, the wumpus is
   * dead or the game is over; otherwise the arrow is spent and it kills the
   * wumpus exactly when the wumpus is next to the agent. The percepts are not
   * recomputed, so a Stench outlives the wumpus until the next move.
   */
  function Shot(s: GameState): (t: GameState)
    ensures s.arrowUsed || !s.wumpusAlive || s.status != Playing ==> t == s
    ensures !s.arrowUsed && s.wumpusAlive && s.status == Playing ==>
      t.arrowUsed && (t.wumpusAlive <==> !Near(s.agent, s.wumpus)) &&
      t.message == (if Near(s.agent, s.wumpus) then KilledWumpus else MissedWumpus)
    ensures t == s.(arrowUsed := t.arrowUsed, wumpusAlive := t.wumpusAlive, message := t.message)
  {
    if s.arrowUsed || !s.wumpusAlive || s.status != Playing then s
    else if Near(s.agent, s.wumpus) then s.(arrowUsed := true, wumpusAlive := false, message := KilledWumpus)
    else s.(arrowUsed := true, message := MissedWumpus)
  }

  /** Sensing: reports the current percepts as they stand, without recomputing them. */
  function Sensed(s: GameState): (t: GameState)
    ensures t.message == NothingSensed <==> s.percepts == []
    ensures t.message != NothingSensed ==> t.message == YouSense(s.percepts)
    ensures t == s.(message := t.message)
  {
    s.(message := if |s.percepts| > 0 then YouSense(s.percepts) else NothingSensed)
  }

  /** The fields exactly as setup assigns them for a given layout. */
  function Reset(gold: Cell, wumpus: Cell, pits: seq<Cell>): GameState {
    GameState(Start, gold, false, wumpus, true, pits, false, [], Playing, NoMessage)
  }

  /**
   * A restart: setup assigns every field, and since it also puts the agent
   * back on the start cell, the evaluation then runs there.
   */
  function Restarted(gold: Cell, wumpus: Cell, pits: seq<Cell>): (t: GameState)
    requires LayoutOk(gold, wumpus, pits)
    ensures t.status == Playing && t.message == NoMessage
    ensures t.agent == Start && !t.hasGold && t.wumpusAlive && !t.arrowUsed
    ensures t.gold == gold && t.wumpus == wumpus && t.pits == pits
    ensures Glitter !in t.percepts
    ensures t.percepts == Senses(t)
    ensures Judge(t).Continue?
  {
    assert Start !in Placed(gold, wumpus, pits);
    assert Start != wumpus && Start !in pits;
    Evaluated(Reset(gold, wumpus, pits))
  }

  /**
   * The states the game can be in: a valid layout, the agent on the board, a
   * finished game that records why it finished, and a game in play whose
   * outcome check has nothing to report. Together the last two say the
   * status is exactly what the agent's cell and the gold decide.
   */
  predicate Consistent(s: GameState) {
    LayoutOk(s.gold, s.wumpus, s.pits) &&
    InBounds(s.agent) &&
    (s.status == Lost ==> Eaten(s) || s.agent in s.pits) &&
    (s.status == Won ==> s.hasGold && s.agent == Start) &&
    (s.status == Playing ==> Judge(s).Continue?)
  }
}
