/** The integer parameters the card entrance animations are given: each
    card's stagger delay and, for blog cards, the side it enters from. The
    animations themselves belong to the animation library. */
module Entrance {

  /** Delay of the card at index `i` of its group, in milliseconds
      (`i * 0.1` seconds). */
  function CardDelayMs(i: nat): nat {
    100 * i
  }

  /** Horizontal start offset of the blog card at index `i`: even indices
      come in from the left, odd ones from the right. */
  function BlogCardStartX(i: nat): int {
    if i % 2 == 0 then -50 else 50
  }

  /** Cards start in document order, one tenth of a second apart. */
  lemma StaggerFollowsDocumentOrder(i: nat, j: nat)
    requires i < j
    ensures CardDelayMs(i) < CardDelayMs(j)
    ensures CardDelayMs(j) - CardDelayMs(i) == 100 * (j - i)
  {
  }

  /** Neighbouring blog cards enter from opposite sides, the same distance
      away, and the first one from the left. */
  lemma NeighboursEnterFromOppositeSides(i: nat)
    ensures BlogCardStartX(i + 1) == -BlogCardStartX(i)
    ensures BlogCardStartX(0) < 0
  {
  }
}
