/**
 * Playing cards as the bot encodes them: a pair (rank index, suit index),
 * rank index 0..12 standing for 2, 3, ..., K, A and suit index 0..3 for
 * spades, hearts, diamonds and clubs.
 */
module Cards {

  datatype Card = Card(rank: int, suit: int)

  predicate ValidCard(c: Card) {
    0 <= c.rank < 13 && 0 <= c.suit < 4
  }

  const RankChars: string := "23456789TJQKA"
  const SuitChars: string := "SHDC"

  /** `card_str`: the two-character name of a card, such as "AH" or "TD". */
  function CardStr(c: Card): (s: string)
    requires ValidCard(c)
    ensures |s| == 2
  {
    [RankChars[c.rank], SuitChars[c.suit]]
  }

  /** Distinct cards get distinct names, so a name identifies its card. */
  lemma CardStrInjective(a: Card, b: Card)
    requires ValidCard(a) && ValidCard(b)
    requires CardStr(a) == CardStr(b)
    ensures a == b
  {
    assert CardStr(a)[0] == CardStr(b)[0] && CardStr(a)[1] == CardStr(b)[1];
  }

  /** `len(set(suits)) == 1`: a non-empty hand whose cards all share one suit. */
  predicate IsFlush(cards: seq<Card>) {
    |cards| > 0 && forall i :: 0 <= i < |cards| ==> cards[i].suit == cards[0].suit
  }

  /** How many cards of the hand have suit `u`. */
  function SuitCount(cards: seq<Card>, u: int): (n: nat)
    ensures n <= |cards|
  {
    if cards == [] then 0
    else (if cards[0].suit == u then 1 else 0) + SuitCount(cards[1..], u)
  }

  /** A flush of n cards holds n cards of its suit. */
  lemma {:induction false} FlushSuitCount(cards: seq<Card>)
    ensures IsFlush(cards) ==> SuitCount(cards, cards[0].suit) == |cards|
  {
    if IsFlush(cards) && |cards| > 1 {
      var tail := cards[1..];
      assert IsFlush(tail) && tail[0].suit == cards[0].suit;
      FlushSuitCount(tail);
    }
  }

  /** Two hands that agree on the rank of every position. */
  predicate SameRanks(a: seq<Card>, b: seq<Card>) {
    |a| == |b| && forall i :: 0 <= i < |a| ==> a[i].rank == b[i].rank
  }
}
