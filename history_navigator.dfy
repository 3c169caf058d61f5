/**
 * The move-history navigator of the game page: an index into the list of
 * recorded positions (FEN strings), moved by four buttons and bounds-checked
 * before the board is reloaded.
 */
module HistoryNavigator {
  import opened Wrappers

  class Navigator {
    const gameFenHistory: seq<string>
    var gameHistoryIndex: int
    /** The position last loaded into the board by the navigator. */
    var board: Option<string>

    constructor (history: seq<string>, index: int)
      ensures gameFenHistory == history && gameHistoryIndex == index && board == None
    {
      gameFenHistory := history;
      gameHistoryIndex := index;
      board := None;
    }

    predicate InRange()
      reads this
    {
      0 <= gameHistoryIndex < |gameFenHistory|
    }

    /**
     * `handleHistoryNavigate`: a target outside `[0, length - 1]` changes
     * nothing; an in-range target loads that position and becomes the index.
     */
    method Navigate(historyIndex: int)
      modifies this
      ensures historyIndex > |gameFenHistory| - 1 || historyIndex < 0 ==>
        gameHistoryIndex == old(gameHistoryIndex) && board == old(board)
      ensures 0 <= historyIndex < |gameFenHistory| ==>
        gameHistoryIndex == historyIndex && board == Some(gameFenHistory[historyIndex])
      ensures old(InRange()) ==> InRange()
    {
      if historyIndex > |gameFenHistory| - 1 || historyIndex < 0 {
        return;
      }
      board := Some(gameFenHistory[historyIndex]);
      gameHistoryIndex := historyIndex;
    }

    /** "Beginning": the first position, unless the history is empty. */
    method Beginning()
      modifies this
      ensures |gameFenHistory| > 0 ==> gameHistoryIndex == 0 && board == Some(gameFenHistory[0])
      ensures |gameFenHistory| == 0 ==> gameHistoryIndex == old(gameHistoryIndex) && board == old(board)
    {
      Navigate(0);
    }

    /**
     * "Back": navigates to one position earlier, so a no-op unless that
     * position exists (at index 0, and from beyond the end of the history).
     */
    method Back()
      modifies this
      ensures 0 <= old(gameHistoryIndex) - 1 < |gameFenHistory| ==>
        gameHistoryIndex == old(gameHistoryIndex) - 1 && board == Some(gameFenHistory[gameHistoryIndex])
      ensures !(0 <= old(gameHistoryIndex) - 1 < |gameFenHistory|) ==>
        gameHistoryIndex == old(gameHistoryIndex) && board == old(board)
      ensures old(InRange()) ==> InRange()
    {
      Navigate(gameHistoryIndex - 1);
    }

    /**
     * "Forward": navigates to one position later, so a no-op unless that
     * position exists (at the last index, and from below -1).
     */
    method Forward()
      modifies this
      ensures 0 <= old(gameHistoryIndex) + 1 < |gameFenHistory| ==>
        gameHistoryIndex == old(gameHistoryIndex) + 1 && board == Some(gameFenHistory[gameHistoryIndex])
      ensures !(0 <= old(gameHistoryIndex) + 1 < |gameFenHistory|) ==>
        gameHistoryIndex == old(gameHistoryIndex) && board == old(board)
      ensures old(InRange()) ==> InRange()
    {
      Navigate(gameHistoryIndex + 1);
    }

    /** "Current": the latest position, unless the history is empty. */
    method Current()
      modifies this
      ensures |gameFenHistory| > 0 ==>
        gameHistoryIndex == |gameFenHistory| - 1 && board == Some(gameFenHistory[|gameFenHistory| - 1])
      ensures |gameFenHistory| == 0 ==> gameHistoryIndex == old(gameHistoryIndex) && board == old(board)
    {
      Navigate(|gameFenHistory| - 1);
    }
  }
}
