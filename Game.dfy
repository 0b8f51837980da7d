/**
 * The game component: one object holding every field of the game, and one
 * method per handler. Each handler is proved to leave exactly the state that
 * the matching function of module Rules computes, and to keep the game
 * consistent.
 */
module App {
  import opened Grid
  import opened Rules
  import Runs

  class Game {
    var agent: Cell
    var gold: Cell
    var hasGold: bool
    var wumpus: Cell
    var wumpusAlive: bool
    var pits: seq<Cell>
    var arrowUsed: bool
    var percepts: seq<Percept>
    var status: Status
    var message: Message

    /** The fields of the game as one value. */
    function State(): GameState
      reads this
    {
      GameState(agent, gold, hasGold, wumpus, wumpusAlive, pits, arrowUsed, percepts, status, message)
    }

    ghost predicate Valid()
      reads this
    {
      Consistent(State())
    }

    /** Mounting the component: the first setup, then the evaluation at the start cell. */
    constructor ()
      ensures Valid()
      ensures LayoutOk(gold, wumpus, pits) && State() == Restarted(gold, wumpus, pits)
    {
      new;
      Restart();
    }

    /**
     * Draws a fresh layout (gold, then the wumpus, then three pits, each on a
     * cell none of the earlier ones took, never the start cell) and resets
     * every other field.
     */
    method SetupGame()
      modifies this
      ensures LayoutOk(gold, wumpus, pits)
      ensures State() == Reset(gold, wumpus, pits)
    {
      FreeCellExists([Start]);
      var goldPos := GetRandomPos([Start]);
      FreeCellExists([Start, goldPos]);
      var wumpusPos := GetRandomPos([Start, goldPos]);
      var pitList: seq<Cell> := [];
      while |pitList| < 3
        invariant |pitList| <= 3
        invariant Distinct(Placed(goldPos, wumpusPos, pitList))
        invariant forall c :: c in Placed(goldPos, wumpusPos, pitList) ==> InBounds(c) && c != Start
      {
        var exclude := [Start, goldPos, wumpusPos] + pitList;
        FreeCellExists(exclude);
        var pit := GetRandomPos(exclude);
        assert Placed(goldPos, wumpusPos, pitList + [pit]) == Placed(goldPos, wumpusPos, pitList) + [pit];
        pitList := pitList + [pit];
      }
      agent := Start;
      gold := goldPos;
      wumpus := wumpusPos;
      wumpusAlive := true;
      pits := pitList;
      hasGold := false;
      arrowUsed := false;
      percepts := [];
      status := Playing;
      message := NoMessage;
    }

    /**
     * The percepts at the agent's cell, collected afresh in the order Glitter,
     * Stench, Breeze.
     */
    method CollectPercepts() returns (senses: seq<Percept>)
      ensures senses == Senses(State())
    {
      senses := [];
      if !hasGold && agent == gold {
        senses := senses + [Glitter];
      }
      if wumpusAlive && Near(agent, wumpus) {
        senses := senses + [Stench];
      }
      if BreezeAt(agent, pits) {
        senses := senses + [Breeze];
      }
    }

    /**
     * The evaluation that runs after every change of the agent's position:
     * replaces the percepts, then checks for the wumpus, a pit and a return
     * home with the gold, in that order.
     */
    method Evaluate()
      modifies this
      ensures State() == Evaluated(old(State()))
    {
      if status != Playing {
        return;
      }
      percepts := CollectPercepts();
      if wumpusAlive && agent == wumpus {
        status := Lost;
        message := EatenByWumpus;
      } else if agent in pits {
        status := Lost;
        message := FellIntoPit;
      } else if hasGold && agent == Start {
        status := Won;
        message := ReturnedWithGold;
      }
    }

    /** The Restart button: a new setup, then the evaluation at the start cell. */
    method Restart()
      modifies this
      ensures Valid()
      ensures LayoutOk(gold, wumpus, pits) && State() == Restarted(gold, wumpus, pits)
    {
      SetupGame();
      Evaluate();
    }

    /** An arrow button: step by (dx, dy), clamped to the board, then evaluate; nothing once the game is over. */
    method Move(dx: int, dy: int)
      requires Valid()
      modifies this
      ensures Valid()
      ensures State() == Moved(old(State()), dx, dy)
    {
      if status != Playing {
        return;
      }
      agent := Cell(Clamp(agent.x + dx), Clamp(agent.y + dy));
      Evaluate();
      Runs.ApplyKeepsConsistent(old(State()), Runs.MoveBy(dx, dy));
    }

    /** The Pick Up Gold button: takes the gold when standing on it and not yet holding it. */
    method PickUpGold()
      requires Valid()
      modifies this
      ensures Valid()
      ensures State() == PickedUp(old(State()))
    {
      if agent == gold && !hasGold {
        hasGold := true;
        message := PickedUpGold;
      }
    }

    /** The Shoot Arrow button: spends the arrow, which kills the wumpus only from a neighbouring cell. */
    method ShootArrow()
      requires Valid()
      modifies this
      ensures Valid()
      ensures State() == Shot(old(State()))
    {
      if arrowUsed || !wumpusAlive || status != Playing {
        return;
      }
      arrowUsed := true;
      if Near(agent, wumpus) {
        wumpusAlive := false;
        message := KilledWumpus;
      } else {
        message := MissedWumpus;
      }
    }

    /** The Sense button: shows the current percepts, or that nothing is sensed. */
    method Sense()
      requires Valid()
      modifies this
      ensures Valid()
      ensures State() == Sensed(old(State()))
    {
      message := if |percepts| > 0 then YouSense(percepts) else NothingSensed;
    }
  }
}
