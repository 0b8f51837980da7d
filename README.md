# Wumpus World, modelled in Dafny

A model of the game logic of a small browser game, Wumpus World. The board is
4x4. The agent starts at cell (0,0), which is also home. Setup places the gold,
one wumpus and three pits at random on five different cells, never on (0,0).
The agent moves one cell at a time, and each move is clamped to the board.
After every move the game recomputes what the agent senses:

- Glitter on uncollected gold;
- Stench next to the live wumpus;
- Breeze next to a pit.

It then decides the outcome. The live wumpus on the agent's cell loses. A pit
loses. Coming home with the gold wins. The agent can also pick up the gold,
shoot its single arrow (which kills the wumpus only from a neighbouring cell),
ask what it senses, and restart.

The whole game lives in one component, `src/App.js`. The model has four modules:

- `Grid` (`Grid.dfy`): cells, Manhattan adjacency, clamping, and the random
  choice of a free cell.
- `Rules` (`Rules.dfy`): the game state as a value, and one function per
  handler that gives the state the handler leaves behind.
- `Runs` (`Runs.dfy`): sequences of user actions, and the properties that hold
  across several actions.
- `App` (`Game.dfy`): the component as a class `Game`, with one field per
  piece of state and one method per handler. Each handler is proved to produce
  exactly the state its `Rules` function gives, and to keep the game
  consistent.

Points where the code's behaviour differs from a casual reading of the rules.
The model follows the code on each:

- The evaluation runs after every move that is not ignored, even when clamping
  leaves the agent where it was. Each move stores a new position object, and
  the evaluation is keyed on that object (`src/App.js:58`, `src/App.js:80`).
- Setup empties the percept list, but it also stores a new start position, so
  the evaluation runs straight after it at (0,0). After a restart the percepts
  are therefore those of the start cell (`Rules.Restarted`).
- The pick-up handler has no status check of its own; only its button is
  disabled once the game is over. `Runs.PickUpAfterEndIsNoOp` shows that this
  makes no difference: in a finished game the agent is never on the gold.
- Picking up the gold and shooting do not recompute the percepts. Glitter stays
  after the pick-up, and Stench stays after the kill, until the next move
  (`Runs.PickUpThenHomeWins`, `Runs.KillMakesWumpusCellSafe`).

## Model

| member | source | states |
|---|---|---|
| `Grid.Distance` | src/App.js:63 | Manhattan distance, zero exactly when the two cells are the same |
| `Grid.NearMeansNeighbour` | src/App.js:63 | "near" (distance exactly 1) holds exactly for the four orthogonal neighbours: never the same cell, never a diagonal |
| `Grid.Clamp` | src/App.js:56-57 | the clamped coordinate lies in [0, 3] and is the closest such value to the unclamped one |
| `Grid.Step` | src/App.js:56-57 | the cell a move reaches is the current cell plus the delta with each axis clamped to [0, 3], so it is on the board; from a board cell, neither axis moves further than its delta; a target on the board is reached exactly |
| `Grid.AllCells` | src/App.js:5 | the 4x4 board lists 16 distinct cells, exactly the cells in bounds |
| `Grid.FreeCandidate` | src/App.js:9-14 | pigeonhole: fewer exclusions than distinct candidates leave some candidate that is not excluded |
| `Grid.FreeCellExists` | src/App.js:9-14 | fewer than 16 exclusions always leave a free board cell, so the rejection loop has a cell to stop on |
| `Grid.GetRandomPos` | src/App.js:7-16 | returns a cell on the board that is none of the excluded cells |
| `Rules.Senses` | src/App.js:63-67 | Glitter iff on the gold and not holding it; Stench iff the wumpus is alive and at distance 1; Breeze iff some pit is at distance 1; no percept twice, in the order Glitter, Stench, Breeze |
| `Rules.Judge` | src/App.js:70-79 | Lost iff on the live wumpus or on a pit, and the wumpus message wins over the pit message; Won iff holding the gold at (0,0) on a safe cell; the game otherwise goes on |
| `Rules.Evaluated` | src/App.js:61-80 | a finished game is untouched; otherwise the percepts are replaced by those of the current cell, the outcome check sets status and message, and nothing else changes |
| `Rules.Moved` | src/App.js:54-59 | ignored unless Playing; otherwise the agent goes to the clamped target cell (on the board, at most the delta away on each axis); percepts and outcome are those of the new cell, and the message is the outcome's when the game ends there and unchanged otherwise; layout, gold, wumpus and arrow are unchanged |
| `Rules.PickedUp` | src/App.js:82-87 | the gold becomes held exactly when the agent stands on it; a successful pick-up sets the pick-up message; otherwise nothing changes; no status check |
| `Rules.Shot` | src/App.js:89-99 | ignored when the arrow is spent, the wumpus is dead or the game is over; otherwise the arrow is spent, and the wumpus dies (kill message) iff it is at distance 1, else the miss message; percepts, position and status are unchanged |
| `Rules.Sensed` | src/App.js:101-104 | the message is "nothing sensed" iff the percept list is empty, else it reports exactly the current percepts; nothing else changes |
| `Rules.Restarted` | src/App.js:30-48 | after a restart: Playing, no message, agent at (0,0), gold not held, wumpus alive, arrow unused, the new layout in place, percepts those of (0,0), never Glitter, and nothing for the outcome check to report |
| `Runs.ApplyKeepsConsistent` | src/App.js:54-104 | every action keeps the layout valid and the agent on the board; Lost is only ever recorded on the live wumpus or a pit, Won only at home holding the gold, and a game in play never stands on the live wumpus, on a pit, or at home with the gold, so the status is exactly what the agent's cell and the gold decide |
| `Runs.RunKeepsConsistent` | src/App.js:30-104 | any sequence of actions from a consistent state ends in a consistent state, so the status always agrees with the agent's cell and the gold |
| `Runs.PickUpAfterEndIsNoOp` | src/App.js:82-86 | in a finished, consistent game picking up the gold changes nothing, although the handler has no status check |
| `Runs.FinishedStaysFinished` | src/App.js:55 | once Won or Lost, any sequence of actions without a restart changes nothing but the message |
| `Runs.RestartLeavesTerminal` | src/App.js:46 | a restart from any state, finished or not, gives a consistent game that is Playing |
| `Runs.ShootTwice` | src/App.js:90-91 | a second shot changes nothing |
| `Runs.PickUpTwice` | src/App.js:83-85 | picking up twice is the same as picking up once |
| `Runs.EvaluateTwice` | src/App.js:61-80 | running the evaluation again straight after it has run changes nothing |
| `Runs.WumpusBeforePit` | src/App.js:70-75 | on a cell holding both the live wumpus and a pit, the evaluation gives Lost with the wumpus message |
| `Runs.LayoutCells` | src/App.js:30-43 | a layout setup draws has gold, wumpus and pits on the board, off the start cell, and on pairwise different cells |
| `Runs.GlitterOnGold` | src/App.js:54-67 | from any consistent game in play, stepping onto the uncollected gold keeps the game Playing and shows Glitter |
| `Runs.PickUpThenHomeWins` | src/App.js:54-86 | standing on the gold, the pick-up takes it without changing the status or the percepts, and then a step onto the start cell wins with the return-home message |
| `Runs.PitLoses` | src/App.js:54-80 | a step onto a pit loses with the pit message (the wumpus is never on a pit), and every later move is ignored |
| `Runs.KillMakesWumpusCellSafe` | src/App.js:61-99 | shooting from a cell next to the live wumpus kills it with the kill message and leaves the percepts (and any Stench) as they were; a step onto the wumpus's cell then keeps the game Playing and gives no Stench |
| `App.Game.constructor` | src/App.js:19-28 | mounting the component yields a consistent game in the state of a restart with a valid layout |
| `App.Game.SetupGame` | src/App.js:30-48 | draws gold, the wumpus and three pits on five distinct board cells other than (0,0), and resets every other field (agent home, gold not held, wumpus alive, arrow unused, no percepts, Playing, no message) |
| `App.Game.CollectPercepts` | src/App.js:64-67 | the percept list it builds is exactly the percepts of the current cell |
| `App.Game.Evaluate` | src/App.js:61-80 | leaves exactly the state `Rules.Evaluated` gives for the old state |
| `App.Game.Restart` | src/App.js:140 | a new setup followed by the evaluation at (0,0), giving exactly the state `Rules.Restarted` gives, and a consistent game |
| `App.Game.Move` | src/App.js:54-59 | leaves exactly the state `Rules.Moved` gives for the old state and the delta, and keeps the game consistent |
| `App.Game.PickUpGold` | src/App.js:82-87 | leaves exactly the state `Rules.PickedUp` gives, and keeps the game consistent |
| `App.Game.ShootArrow` | src/App.js:89-99 | leaves exactly the state `Rules.Shot` gives, and keeps the game consistent |
| `App.Game.Sense` | src/App.js:101-104 | leaves exactly the state `Rules.Sensed` gives, and keeps the game consistent |

## Left out

- Rendering, the grid display, the buttons and the styling (`src/App.js:106-143`) are view code. The disabled-button guards at `src/App.js:137-139` are not modelled; the handlers are modelled as written, without them.
- React's state hooks and effect scheduling are not modelled. The evaluation effect keyed on the agent position is a synchronous call made right after each position change (in `Move` and in `Restart`).
- Messages are constructors of `Message`, not the emoji strings. The "you sense" message carries the percept list instead of the joined string.
- `Math.random` and `Math.floor` are not modelled: a free board cell is chosen nondeterministically.
- Grid.GetRandomPos: promises only some free board cell, not a uniformly random one. The number of rejected draws and the loop's almost-sure termination are not modelled.
- Before the first setup the gold and wumpus positions are null. The model's constructor runs setup at once, so the null checks on `gold` and `wumpus` (`src/App.js:65-66`, `70`, `83`) always pass in the model and are left out.
- `Move` accepts any integer delta. The buttons only pass the four unit deltas, and every property above holds for any delta.
