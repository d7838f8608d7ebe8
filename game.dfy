/**
 * Game.Run: build the two managers, set the parties up and let the sides take turns until
 * one party is empty.  The main menu's answer (who plays each side) and the hero's name are
 * parameters; the per-turn decisions come from `choose`.  The source's loop has no bound,
 * so the model runs it for at most `fuel` iterations.
 */
module Game {
  import opened Characters
  import opened Combat
  import opened Battle

  /** The first lines of Run: the two managers, and the parties set up from the menu's answer. */
  method SetUp(name: string, heroPlayer: PlayerKind, monsterPlayer: PlayerKind)
    returns (party: PartyManager, turn: TurnManager)
    ensures fresh(party) && fresh(turn)
    ensures WorldOf(party, turn) == StartWorld(name, heroPlayer, monsterPlayer)
  {
    party := new PartyManager();
    turn := new TurnManager(party);
    party.PartySetUpSettings(turn, heroPlayer, monsterPlayer, name);
  }

  /** One pass of Run's loop: the side whose turn it is plays, then the round is closed. */
  method Pass(party: PartyManager, turn: TurnManager, choose: World -> Choice)
    requires !party.CheckForEmptyParties()
    modifies party, turn
    ensures WorldOf(party, turn) == Iteration(old(WorldOf(party, turn)), choose)
  {
    turn.CurrentPartyTurnSetUp(party);
    turn.RunCurrentParty(party, choose);
    turn.CheckForNextRound(party);
    turn.AdvanceToNextParty();
  }

  /** The loop of Run: one pass per side's turn while both parties have members. */
  method Loop(party: PartyManager, turn: TurnManager, choose: World -> Choice, fuel: nat)
    modifies party, turn
    ensures WorldOf(party, turn) == RunLoop(old(WorldOf(party, turn)), choose, fuel)
  {
    ghost var trace := [WorldOf(party, turn)];
    var passes: nat := 0;
    while !party.CheckForEmptyParties() && passes < fuel
      invariant passes <= fuel && |trace| == passes + 1
      invariant IsTrace(trace, Step(choose)) && trace[0] == old(WorldOf(party, turn))
      invariant trace[passes] == WorldOf(party, turn)
      decreases fuel - passes
    {
      ghost var w := WorldOf(party, turn);
      Pass(party, turn, choose);
      assert WorldOf(party, turn) == Step(choose)(w);
      TraceSnoc(trace, Step(choose), WorldOf(party, turn));
      trace := trace + [WorldOf(party, turn)];
      passes := passes + 1;
    }
    TraceRepeat(trace, Step(choose), fuel);
  }

  /**
   * Run ends in the state RunLoop computes from the starting battle: a party is empty, or
   * the iteration budget is spent and RoundCounter counts the passes (Combat.RunLoopCounts).
   */
  method Run(name: string, heroPlayer: PlayerKind, monsterPlayer: PlayerKind,
             choose: World -> Choice, fuel: nat)
    returns (party: PartyManager, turn: TurnManager)
    ensures fresh(party) && fresh(turn)
    ensures WorldOf(party, turn) == RunLoop(StartWorld(name, heroPlayer, monsterPlayer), choose, fuel)
  {
    party, turn := SetUp(name, heroPlayer, monsterPlayer);
    Loop(party, turn, choose, fuel);
  }
}
