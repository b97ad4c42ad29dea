// The merge log (src/logic/LuckTracker.ts): an append-only list of snapshots, one per
// recorded merge, holding the column's cards before the merge and the cards it produced.

module LuckTracker {
  import opened Cards

  /** FortuneSnapshot: the column's cards before a merge and the merged cards. */
  datatype FortuneSnapshot = FortuneSnapshot(columnCards: seq<Card>, mergedCards: seq<Card>)

  /** The module-level mergeHistory array. */
  class MergeLog {
    var mergeHistory: seq<FortuneSnapshot>

    constructor ()
      ensures mergeHistory == []
    {
      mergeHistory := [];
    }

    /**
     * recordMergeLuck: append exactly one snapshot at the end; the earlier entries stay as
     * they were. Card sequences are values, so the snapshot holds copies of its arguments.
     */
    method RecordMergeLuck(previousCards: seq<Card>, mergedCards: seq<Card>)
      modifies this
      ensures mergeHistory == old(mergeHistory) + [FortuneSnapshot(previousCards, mergedCards)]
      ensures |mergeHistory| == |old(mergeHistory)| + 1 && mergeHistory[..|old(mergeHistory)|] == old(mergeHistory)
    {
      mergeHistory := mergeHistory + [FortuneSnapshot(previousCards, mergedCards)];
    }

    /** clearMergeHistory: the log is empty afterwards. */
    method ClearMergeHistory()
      modifies this
      ensures mergeHistory == []
    {
      mergeHistory := [];
    }

    /** getMergeHistory: the entries in recording order, leaving the log as it is. */
    method GetMergeHistory() returns (entries: seq<FortuneSnapshot>)
      ensures entries == mergeHistory
    {
      entries := mergeHistory[..];
    }
  }
}
