/**
 The progress tracker of the GreenScore forms: a session-scoped list of
 saved scores that the "Save Current Score" button appends to.
 */
module Progress {

  class History {
    /** The saved scores, oldest first. */
    var entries: seq<int>

    /** A new session has saved nothing yet. */
    constructor()
      ensures entries == []
    {
      entries := [];
    }

    /** Saving adds exactly one entry, the given score, at the end, and
        leaves every earlier entry as it was. */
    method Save(score: int)
      modifies this
      ensures entries == old(entries) + [score]
      ensures |entries| == |old(entries)| + 1
      ensures entries[..|old(entries)|] == old(entries)
      ensures entries[|entries| - 1] == score
    {
      entries := entries + [score];
    }
  }
}
