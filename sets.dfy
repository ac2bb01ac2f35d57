/**
 * Bookkeeping for the loops that drain the keys of a Go map one by one:
 * the keys already handled are those of the map minus those remaining.
 */
module Sets {

  /** Handling one more remaining key adds exactly that key to the handled ones. */
  lemma DrainStep<T>(all: set<T>, remaining: set<T>, x: T)
    requires remaining <= all && x in remaining
    ensures all - (remaining - {x}) == (all - remaining) + {x}
    ensures x !in all - remaining
  {
  }

  /** Before the first key nothing is handled; after the last, everything is. */
  lemma DrainEnds<T>(all: set<T>)
    ensures all - all == {}
    ensures all - {} == all
  {
  }
}
