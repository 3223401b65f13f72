/** The high-water mark of each destination chain, and which withdrawals it leaves to a poll. */
module HighWater {
  type ChainId = int

  type Marks = map<ChainId, nat>

  predicate Above(marks: Marks, chain: ChainId, index: nat) {
    chain in marks ==> index > marks[chain]
  }

  /** A block old at least, and above the mark. */
  predicate Due(marks: Marks, currentBlock: int, chain: ChainId, block: int, index: nat) {
    currentBlock - block >= 1 && Above(marks, chain, index)
  }

  /** The mark never goes down. */
  function Raised(marks: Marks, chain: ChainId, index: nat): Marks {
    marks[chain := if chain in marks && marks[chain] > index then marks[chain] else index]
  }

  /** Raising the mark of a chain to an index shuts out that index and those below it, and nothing
      else. */
  lemma RaisedShutsOut(marks: Marks, chain: ChainId, index: nat, other: ChainId, i: nat)
    ensures Above(Raised(marks, chain, index), other, i) <==> Above(marks, other, i) && (other == chain ==> i > index)
  {
  }
}
