/**
 * The poker table of one channel (table.py): seating and buy-in, blind
 * posting with dealer rotation, dealing, the end-of-round test, street
 * advance, the winner/loser split and the show-or-muck window.
 *
 * `Player` and `PokerTable` are classes whose fields the methods update in
 * place. `Seat` and `State` are the values of those fields at one moment;
 * every method states its new state as a function of the old one, and the
 * lemmas below are about those functions.
 */
module Table {
  import opened Wrappers
  import opened Cards
  import TupleOrder
  import HandEvaluator
  import RankAnalysis

  /** `street`: "idle", "pre", "flop", "turn", "river" or "showdown". */
  datatype Street = Idle | Preflop | Flop | Turn | River | Showdown

  /** A decision in `pending_show`: "show" or "muck". */
  datatype Decision = Show | Muck

  /** `pending_type`: "fold" or "showdown". */
  datatype PendingKind = FoldWindow | ShowdownWindow

  /** The outcome of `set_buyin`, one constructor per message. */
  datatype BuyinResult = BoughtIn | OutOfRange | AlreadyBoughtIn | NotSeated

  /** The blinds and the buy-in range fixed when the table is created. */
  datatype Rules = Rules(sb: int, bb: int, minBuyin: int, maxBuyin: int)

  /** A player's fields at one moment. */
  datatype Seat = Seat(userId: int, name: string, stack: int, hole: seq<Card>, folded: bool, committed: int)

  /** The table's fields at one moment. */
  datatype State = State(
    rules: Rules,
    seats: seq<Seat>,
    deck: seq<Card>,
    pot: int,
    currentBet: int,
    turnIdx: Option<nat>,
    board: seq<Card>,
    street: Street,
    acted: set<int>,
    dealerIdx: nat,
    handCount: nat,
    showdownPending: bool,
    pendingType: Option<PendingKind>,
    pendingShow: map<int, Option<Decision>>)

  // ---------------------------------------------------------------------
  // Chips

  /** The chips in front of the players. */
  function Stacks(seats: seq<Seat>): int
  {
    if seats == [] then 0 else seats[0].stack + Stacks(seats[1..])
  }

  /** Every chip at the table: the stacks and the pot. */
  function Chips(s: State): int
  {
    Stacks(s.seats) + s.pot
  }

  /** Replacing one seat changes the total only by that seat's stack. */
  lemma {:induction false} StacksUpdate(seats: seq<Seat>, i: nat, p: Seat)
    requires i < |seats|
    ensures Stacks(seats[i := p]) == Stacks(seats) - seats[i].stack + p.stack
  {
    if i > 0 {
      assert seats[i := p][1..] == seats[1..][i - 1 := p];
      StacksUpdate(seats[1..], i - 1, p);
    }
  }

  /** Seats with the same stacks, one by one, hold the same chips. */
  lemma {:induction false} StacksAlike(a: seq<Seat>, b: seq<Seat>)
    requires |a| == |b|
    requires forall i :: 0 <= i < |a| ==> a[i].stack == b[i].stack
    ensures Stacks(a) == Stacks(b)
  {
    if a != [] {
      StacksAlike(a[1..], b[1..]);
    }
  }

  /** The number of players with chips: `len([p for p in players if p.stack > 0])`. */
  function Funded(seats: seq<Seat>): (n: nat)
    ensures n <= |seats|
    ensures n > 0 ==> exists i :: 0 <= i < |seats| && seats[i].stack > 0
  {
    if seats == [] then 0
    else (if seats[0].stack > 0 then 1 else 0) + Funded(seats[1..])
  }

  /** Seats with the same stacks, one by one, have the same number funded. */
  lemma {:induction false} FundedAlike(a: seq<Seat>, b: seq<Seat>)
    requires |a| == |b|
    requires forall i :: 0 <= i < |a| ==> a[i].stack == b[i].stack
    ensures Funded(a) == Funded(b)
  {
    if a != [] {
      FundedAlike(a[1..], b[1..]);
    }
  }

  // ---------------------------------------------------------------------
  // Seating

  /** The first seat held by `userId`, if any. */
  function SeatIndex(seats: seq<Seat>, userId: int): (r: Option<nat>)
    ensures r.Some? ==> r.value < |seats| && seats[r.value].userId == userId
    ensures r.Some? ==> forall j :: 0 <= j < r.value ==> seats[j].userId != userId
    ensures r.None? ==> forall j :: 0 <= j < |seats| ==> seats[j].userId != userId
  {
    if seats == [] then None
    else if seats[0].userId == userId then Some(0)
    else match SeatIndex(seats[1..], userId)
      case None => None
      case Some(k) => Some(k + 1)
  }

  /** No user holds two seats. */
  predicate UniqueIds(seats: seq<Seat>)
  {
    forall i, j :: 0 <= i < j < |seats| ==> seats[i].userId != seats[j].userId
  }

  /** The player added by `add_player`: no chips, no cards, not folded. */
  function NewSeat(userId: int, name: string): Seat
  {
    Seat(userId, name, 0, [], false, 0)
  }

  /** `Player.reset_for_hand`: no cards, not folded, nothing committed. */
  function ResetSeat(p: Seat): (r: Seat)
    ensures r.userId == p.userId && r.name == p.name && r.stack == p.stack
    ensures r.hole == [] && !r.folded && r.committed == 0
  {
    p.(hole := [], folded := false, committed := 0)
  }

  /** Seating a user who holds no seat keeps user ids unique. */
  lemma AddKeepsIdsUnique(seats: seq<Seat>, userId: int, name: string)
    requires UniqueIds(seats)
    requires SeatIndex(seats, userId).None?
    ensures UniqueIds(seats + [NewSeat(userId, name)])
  {
  }

  /**
   * `set_buyin`'s answer: the amount must lie in the buy-in range, the
   * user must be seated, and a player who still has chips cannot buy in
   * again.
   */
  function BuyinOutcome(s: State, userId: int, amount: int): BuyinResult
  {
    if amount < s.rules.minBuyin || amount > s.rules.maxBuyin then OutOfRange
    else match SeatIndex(s.seats, userId)
      case None => NotSeated
      case Some(i) => if s.seats[i].stack > 0 then AlreadyBoughtIn else BoughtIn
  }

  /** `set_buyin`'s effect: on success the player's stack becomes the amount. */
  function BuyinState(s: State, userId: int, amount: int): State
  {
    if BuyinOutcome(s, userId, amount) == BoughtIn then
      var i := SeatIndex(s.seats, userId).value;
      s.(seats := s.seats[i := s.seats[i].(stack := amount)])
    else s
  }

  /**
   * A buy-in succeeds exactly for a seated user with no chips and an
   * amount in range; it then sets that one stack to the amount, adding
   * the difference to the chips at the table, and changes nothing else.
   */
  lemma BuyinEffect(s: State, userId: int, amount: int)
    requires Invariant(s)
    ensures BuyinOutcome(s, userId, amount) == BoughtIn <==>
              s.rules.minBuyin <= amount <= s.rules.maxBuyin
              && exists i :: 0 <= i < |s.seats| && s.seats[i].userId == userId && s.seats[i].stack <= 0
    ensures Invariant(BuyinState(s, userId, amount))
    ensures BuyinState(s, userId, amount).(seats := s.seats) == s
    ensures |BuyinState(s, userId, amount).seats| == |s.seats|
    ensures forall j :: 0 <= j < |s.seats| ==>
              BuyinState(s, userId, amount).seats[j] ==
                if BuyinOutcome(s, userId, amount) == BoughtIn && s.seats[j].userId == userId
                then s.seats[j].(stack := amount) else s.seats[j]
    ensures BuyinOutcome(s, userId, amount) == BoughtIn ==>
              Chips(BuyinState(s, userId, amount)) == Chips(s) - s.seats[SeatIndex(s.seats, userId).value].stack + amount
  {
    var t := BuyinState(s, userId, amount);
    match SeatIndex(s.seats, userId)
    case None =>
    case Some(i) =>
      if BuyinOutcome(s, userId, amount) == BoughtIn {
        StacksUpdate(s.seats, i, s.seats[i].(stack := amount));
        assert forall j :: 0 <= j < |s.seats| ==> t.seats[j].userId == s.seats[j].userId;
      }
  }

  // ---------------------------------------------------------------------
  // Streets

  /** The street `next_street` moves to. */
  function NextOf(st: Street): Street
  {
    match st
    case Preflop => Flop
    case Flop => Turn
    case Turn => River
    case River => Showdown
    case Idle => Idle
    case Showdown => Showdown
  }

  /** The board cards `next_street` draws on leaving a street. */
  function Drawn(st: Street): nat
  {
    match st
    case Preflop => 3
    case Flop => 1
    case Turn => 1
    case _ => 0
  }

  /** The number of board cards while the street is being played. */
  function BoardSize(st: Street): nat
  {
    match st
    case Preflop => 0
    case Flop => 3
    case Turn => 4
    case _ => 5
  }

  /** The board cards still to come from a street to the showdown. */
  function CardsToCome(st: Street): nat
  {
    match st
    case Preflop => 5
    case Flop => 2
    case Turn => 1
    case _ => 0
  }

  /** The streets between a street and the showdown. */
  function StreetsLeft(st: Street): nat
  {
    match st
    case Preflop => 4
    case Flop => 3
    case Turn => 2
    case River => 1
    case _ => 0
  }

  /**
   * What holds of the table between commands: one seat per user, the turn
   * on a seat, at most five board cards, and during a hand at least two
   * players, the board the street calls for and enough deck for the rest
   * of the board.
   */
  ghost predicate Invariant(s: State)
  {
    UniqueIds(s.seats)
    && (s.turnIdx.Some? ==> s.turnIdx.value < |s.seats|)
    && |s.board| <= 5
    && (s.street != Idle ==>
          |s.seats| >= 2 && |s.board| == BoardSize(s.street) && |s.deck| >= CardsToCome(s.street))
  }

  /** The table as `PokerTable.__init__` leaves it. */
  function Initial(rules: Rules): State
  {
    State(rules, [], [], 0, 0, None, [], Idle, {}, 0, 0, false, None, map[])
  }

  lemma InitialInvariant(rules: Rules)
    ensures Invariant(Initial(rules)) && Chips(Initial(rules)) == 0
  {
  }

  // ---------------------------------------------------------------------
  // Beginning a hand

  /** The last `k` cards of the deck, in the order `deck.pop()` returns them. */
  function Popped(deck: seq<Card>, k: nat): (r: seq<Card>)
    requires k <= |deck|
    ensures |r| == k
    ensures forall j :: 0 <= j < k ==> r[j] == deck[|deck| - 1 - j]
  {
    seq(k, j requires 0 <= j < k => deck[|deck| - 1 - j])
  }

  /**
   * The cards seat `i` of `n` holds after `rounds` dealing rounds (at most
   * two), each round popping one card per seat from the end of `deck`.
   */
  function Dealt(deck: seq<Card>, n: nat, i: nat, rounds: nat): (r: seq<Card>)
    requires i < n && rounds <= 2 && 2 * n <= |deck|
    ensures |r| == rounds
  {
    if rounds == 0 then []
    else if rounds == 1 then [deck[|deck| - 1 - i]]
    else [deck[|deck| - 1 - i], deck[|deck| - 1 - n - i]]
  }

  /** The small-blind seat of the next hand: the dealer moves one seat on. */
  function SmallBlindSeat(s: State): (d: nat)
    requires |s.seats| >= 2
    ensures d < |s.seats|
  {
    (s.dealerIdx + 1) % |s.seats|
  }

  /** The big-blind seat of the next hand: the seat after the small blind. */
  function BigBlindSeat(s: State): (b: nat)
    requires |s.seats| >= 2
    ensures b < |s.seats| && b != SmallBlindSeat(s)
  {
    (SmallBlindSeat(s) + 1) % |s.seats|
  }

  /** What seat `i` posts as a blind: `min(blind, stack)` or nothing. */
  function Post(s: State, i: nat): int
    requires |s.seats| >= 2 && i < |s.seats|
  {
    if i == SmallBlindSeat(s) then RankAnalysis.Min(s.rules.sb, s.seats[i].stack)
    else if i == BigBlindSeat(s) then RankAnalysis.Min(s.rules.bb, s.seats[i].stack)
    else 0
  }

  /** Seat `i` once reset and its blind posted. */
  function PostedSeat(s: State, i: nat): (r: Seat)
    requires |s.seats| >= 2 && i < |s.seats|
    ensures r.hole == []
  {
    ResetSeat(s.seats[i]).(stack := s.seats[i].stack - Post(s, i), committed := Post(s, i))
  }

  /** Seat `i` once reset, its blind posted and two cards dealt. */
  function DealtSeat(s: State, deck: seq<Card>, i: nat): Seat
    requires |s.seats| >= 2 && i < |s.seats| && 2 * |s.seats| <= |deck|
  {
    PostedSeat(s, i).(hole := Dealt(deck, |s.seats|, i, 2))
  }

  /** `begin_hand` once at least two players have chips, dealing from `deck`. */
  function BeginHandState(s: State, deck: seq<Card>): State
    requires |s.seats| >= 2 && 2 * |s.seats| <= |deck|
  {
    var n := |s.seats|;
    var d := SmallBlindSeat(s);
    var b := BigBlindSeat(s);
    s.(seats := seq(n, i requires 0 <= i < n => DealtSeat(s, deck, i)),
       deck := deck[..|deck| - 2 * n],
       pot := Post(s, d) + Post(s, b),
       currentBet := Post(s, b),
       turnIdx := Some((b + 1) % n),
       board := [],
       street := Preflop,
       acted := {},
       dealerIdx := d,
       handCount := s.handCount + 1,
       showdownPending := false,
       pendingType := None,
       pendingShow := map[])
  }

  /**
   * Only the two blinds leave the stacks, and they go to the pot: the
   * chips after the blinds are the stacks before the hand.
   */
  lemma BlindsConserveChips(s: State, deck: seq<Card>)
    requires |s.seats| >= 2 && 2 * |s.seats| <= |deck|
    ensures Chips(BeginHandState(s, deck)) == Stacks(s.seats)
  {
    var t := BeginHandState(s, deck);
    var d, b := SmallBlindSeat(s), BigBlindSeat(s);
    var posted := s.seats[d := s.seats[d].(stack := s.seats[d].stack - Post(s, d))];
    var both := posted[b := posted[b].(stack := posted[b].stack - Post(s, b))];
    StacksUpdate(s.seats, d, posted[d]);
    StacksUpdate(posted, b, both[b]);
    StacksAlike(t.seats, both);
  }

  /**
   * When both blinds can cover their blind, the pot holds exactly the two
   * blinds, the bet to match is the big blind, and the big blind acts
   * last: the turn is on the seat after it.
   */
  lemma FullBlinds(s: State, deck: seq<Card>)
    requires |s.seats| >= 2 && 2 * |s.seats| <= |deck|
    requires s.seats[SmallBlindSeat(s)].stack >= s.rules.sb
    requires s.seats[BigBlindSeat(s)].stack >= s.rules.bb
    ensures BeginHandState(s, deck).pot == s.rules.sb + s.rules.bb
    ensures BeginHandState(s, deck).currentBet == s.rules.bb
    ensures BeginHandState(s, deck).seats[SmallBlindSeat(s)].stack == s.seats[SmallBlindSeat(s)].stack - s.rules.sb
    ensures BeginHandState(s, deck).seats[BigBlindSeat(s)].stack == s.seats[BigBlindSeat(s)].stack - s.rules.bb
  {
  }

  /**
   * A short stack posts what it has: each blind seat pays `min(blind,
   * stack)` into the pot and has that much committed, every other seat
   * keeps its stack and has nothing committed, and each seat holds the
   * card popped for it in the first round and then the one popped for it
   * in the second.
   */
  lemma BlindsPosted(s: State, deck: seq<Card>)
    requires |s.seats| >= 2 && 2 * |s.seats| <= |deck|
    ensures var t, d, b := BeginHandState(s, deck), SmallBlindSeat(s), BigBlindSeat(s);
      var ps, pb := RankAnalysis.Min(s.rules.sb, s.seats[d].stack), RankAnalysis.Min(s.rules.bb, s.seats[b].stack);
      t.seats[d].stack == s.seats[d].stack - ps && t.seats[d].committed == ps
      && t.seats[b].stack == s.seats[b].stack - pb && t.seats[b].committed == pb
      && t.pot == ps + pb && t.currentBet == pb
    ensures forall i :: 0 <= i < |s.seats| && i != SmallBlindSeat(s) && i != BigBlindSeat(s) ==>
              BeginHandState(s, deck).seats[i].stack == s.seats[i].stack
              && BeginHandState(s, deck).seats[i].committed == 0
    ensures forall i :: 0 <= i < |s.seats| ==>
              BeginHandState(s, deck).seats[i].hole
              == [deck[|deck| - 1 - i], deck[|deck| - 1 - |s.seats| - i]]
  {
  }

  /**
   * A new hand keeps the table valid: everyone is back in with exactly two
   * hole cards and nothing else from the last hand, the deck shrinks by
   * two cards per player, and the turn is on a seat.
   */
  lemma BeginHandInvariant(s: State, deck: seq<Card>)
    requires Invariant(s)
    requires |s.seats| >= 2 && 2 * |s.seats| + 5 <= |deck|
    ensures Invariant(BeginHandState(s, deck))
    ensures forall i :: 0 <= i < |s.seats| ==>
              |BeginHandState(s, deck).seats[i].hole| == 2 && !BeginHandState(s, deck).seats[i].folded
    ensures |BeginHandState(s, deck).deck| == |deck| - 2 * |s.seats|
    ensures BeginHandState(s, deck).dealerIdx == (s.dealerIdx + 1) % |s.seats|
  {
    var t := BeginHandState(s, deck);
    assert forall i :: 0 <= i < |s.seats| ==> t.seats[i].userId == s.seats[i].userId;
  }

  // ---------------------------------------------------------------------
  // Betting rounds and streets

  /**
   * `everyone_matched`: every player still in and not all-in has acted
   * this round and matched the current bet.
   */
  predicate Matched(s: State)
  {
    forall i :: 0 <= i < |s.seats| && !s.seats[i].folded && s.seats[i].stack != 0 ==>
      s.seats[i].committed >= s.currentBet && s.seats[i].userId in s.acted
  }

  /**
   * `next_street`: a new betting round (no one has acted, nothing is
   * committed, no bet to match, seat 0 to act) on the next street, with
   * the board cards that street draws popped from the deck.
   */
  function NextStreetState(s: State): State
    requires Drawn(s.street) <= |s.deck|
  {
    var k := Drawn(s.street);
    s.(seats := seq(|s.seats|, i requires 0 <= i < |s.seats| => s.seats[i].(committed := 0)),
       acted := {},
       currentBet := 0,
       board := s.board + Popped(s.deck, k),
       deck := s.deck[..|s.deck| - k],
       street := NextOf(s.street),
       turnIdx := Some(0))
  }

  /** A valid table always holds the cards the next street draws. */
  lemma DeckCoversNextStreet(s: State)
    requires Invariant(s)
    ensures Drawn(s.street) <= |s.deck|
  {
  }

  /**
   * Advancing the street keeps the table valid (in particular the board
   * has the size the new street calls for), moves no chips, and starts a
   * round in which no one has acted and no bet is open.
   */
  lemma NextStreetInvariant(s: State)
    requires Invariant(s) && |s.seats| > 0
    ensures Invariant(NextStreetState(s))
    ensures Chips(NextStreetState(s)) == Chips(s)
    ensures NextStreetState(s).acted == {} && NextStreetState(s).currentBet == 0
    ensures forall i :: 0 <= i < |s.seats| ==> NextStreetState(s).seats[i].committed == 0
  {
    var t := NextStreetState(s);
    assert forall i :: 0 <= i < |s.seats| ==> t.seats[i].userId == s.seats[i].userId;
    StacksAlike(t.seats, s.seats);
  }

  /** During a hand every street change brings the showdown one street closer. */
  lemma NextStreetProgress(s: State)
    requires Drawn(s.street) <= |s.deck|
    requires s.street != Idle && s.street != Showdown
    ensures StreetsLeft(NextStreetState(s).street) == StreetsLeft(s.street) - 1
    ensures NextStreetState(s).street != Idle
  {
  }

  /**
   * Leaving the preflop draws the flop (three cards), leaving the flop or
   * the turn draws one card, and the river draws none; the cards come off
   * the end of the deck onto the end of the board, and seat 0 acts next.
   */
  lemma NextStreetDraws(s: State)
    requires Drawn(s.street) <= |s.deck|
    ensures var t := NextStreetState(s);
      t.board[..|s.board|] == s.board
      && (s.street == Preflop ==> |t.board| == |s.board| + 3)
      && (s.street == Flop || s.street == Turn ==> |t.board| == |s.board| + 1)
      && (s.street == River ==> t.board == s.board && t.street == Showdown)
      && t.board[|s.board|..] == Popped(s.deck, |t.board| - |s.board|)
      && |t.deck| + |t.board| == |s.deck| + |s.board|
      && t.turnIdx == Some(0) && t.pot == s.pot
  {
  }

  /**
   * The all-in runout: `next_street` until the street is the showdown.
   * From a street of a hand it ends after at most four street changes.
   */
  function RunOut(s: State): State
    requires Invariant(s) && s.street != Idle
    decreases StreetsLeft(s.street)
  {
    if s.street == Showdown then s
    else
      DeckCoversNextStreet(s);
      NextStreetInvariant(s);
      RunOut(NextStreetState(s))
  }

  /**
   * The runout reaches the showdown with the five board cards dealt,
   * keeps the table valid and moves no chips.
   */
  lemma {:induction false} RunOutReachesShowdown(s: State)
    requires Invariant(s) && s.street != Idle
    ensures RunOut(s).street == Showdown
    ensures |RunOut(s).board| == 5
    ensures Invariant(RunOut(s)) && Chips(RunOut(s)) == Chips(s)
    ensures |RunOut(s).seats| == |s.seats|
    decreases StreetsLeft(s.street)
  {
    if s.street != Showdown {
      DeckCoversNextStreet(s);
      NextStreetInvariant(s);
      NextStreetProgress(s);
      RunOutReachesShowdown(NextStreetState(s));
    }
  }

  /** Popping `k` cards and then `m` more pops the last `k + m` cards. */
  lemma PoppedMore(d: seq<Card>, k: nat, m: nat)
    requires k + m <= |d|
    ensures Popped(d, k) + Popped(d[..|d| - k], m) == Popped(d, k + m)
  {
    var a, b := Popped(d, k) + Popped(d[..|d| - k], m), Popped(d, k + m);
    forall j | 0 <= j < k + m ensures a[j] == b[j] {
      if j >= k {
        assert a[j] == Popped(d[..|d| - k], m)[j - k];
      }
    }
  }

  /**
   * The runout deals every board card still to come off the end of the
   * deck, in the order `deck.pop()` returns them: from the pre-flop
   * street, all five.
   */
  lemma {:induction false} RunOutDeals(s: State)
    requires Invariant(s) && s.street != Idle
    ensures RunOut(s).board == s.board + Popped(s.deck, CardsToCome(s.street))
    ensures RunOut(s).deck == s.deck[..|s.deck| - CardsToCome(s.street)]
    decreases StreetsLeft(s.street)
  {
    if s.street == Showdown {
      assert s.board + Popped(s.deck, 0) == s.board;
    } else {
      DeckCoversNextStreet(s);
      NextStreetInvariant(s);
      NextStreetProgress(s);
      var t := NextStreetState(s);
      RunOutDeals(t);
      assert CardsToCome(s.street) == Drawn(s.street) + CardsToCome(t.street);
      PoppedMore(s.deck, Drawn(s.street), CardsToCome(t.street));
      assert t.deck[..|t.deck| - CardsToCome(t.street)] == s.deck[..|s.deck| - CardsToCome(s.street)];
    }
  }

  // ---------------------------------------------------------------------
  // Ranking at the showdown

  /** A seat's best score: its hole cards with the five board cards. */
  function Score(s: State, i: nat): seq<int>
    requires i < |s.seats| && |s.board| == 5
  {
    HandEvaluator.BestHand(s.seats[i].hole + s.board).score
  }

  /** A seat at the showdown: still in or not, and its best score. */
  datatype Contender = Contender(live: bool, score: seq<int>)

  /** Every seat's best score over its hole cards and the board, with whether the player is still in. */
  function Contenders(s: State): (cs: seq<Contender>)
    requires |s.board| == 5
    ensures |cs| == |s.seats|
    ensures forall i :: 0 <= i < |s.seats| ==> cs[i] == Contender(!s.seats[i].folded, Score(s, i))
  {
    seq(|s.seats|, i requires 0 <= i < |s.seats| => Contender(!s.seats[i].folded, Score(s, i)))
  }

  /** The highest score among the live contenders among the first `k`. */
  function TopScore(cs: seq<Contender>, k: nat): Option<seq<int>>
    requires k <= |cs|
  {
    if k == 0 then None
    else
      var t := TopScore(cs, k - 1);
      if !cs[k - 1].live then t
      else if t.None? || TupleOrder.Less(t.value, cs[k - 1].score) then Some(cs[k - 1].score)
      else t
  }

  /**
   * The top score is some live contender's score and no live contender
   * scores more; there is one exactly when someone is still in.
   */
  lemma {:induction false} TopScoreIsMaximum(cs: seq<Contender>, k: nat)
    requires k <= |cs|
    ensures TopScore(cs, k).None? <==> forall j :: 0 <= j < k ==> !cs[j].live
    ensures TopScore(cs, k).Some? ==>
              (exists j :: 0 <= j < k && cs[j].live && cs[j].score == TopScore(cs, k).value)
              && forall j :: 0 <= j < k && cs[j].live ==> TupleOrder.LessEq(cs[j].score, TopScore(cs, k).value)
  {
    if k > 0 {
      TopScoreIsMaximum(cs, k - 1);
      var t := TopScore(cs, k - 1);
      if cs[k - 1].live && t.Some? {
        var sc := cs[k - 1].score;
        TupleOrder.LessTrichotomy(t.value, sc);
        if TupleOrder.Less(t.value, sc) {
          forall j | 0 <= j < k - 1 && cs[j].live ensures TupleOrder.LessEq(cs[j].score, sc) {
            if cs[j].score != t.value {
              TupleOrder.LessTransitive(cs[j].score, t.value, sc);
            }
          }
        }
      }
    }
  }

  /** A seat still in at the showdown gives the table a top score. */
  lemma LiveContender(s: State, i: nat)
    requires |s.board| == 5 && i < |s.seats| && !s.seats[i].folded
    ensures TopScore(Contenders(s), |s.seats|).Some?
  {
    SomeoneLive(Contenders(s), i);
  }

  /** With someone still in there is a top score. */
  lemma SomeoneLive(cs: seq<Contender>, w: nat)
    requires w < |cs| && cs[w].live
    ensures TopScore(cs, |cs|).Some?
  {
    TopScoreIsMaximum(cs, |cs|);
  }

  /**
   * The live contenders among the first `k` whose score is (`top`) or is
   * not (`!top`) `best`, in seat order.
   */
  function Split(cs: seq<Contender>, best: seq<int>, top: bool, k: nat): seq<nat>
    requires k <= |cs|
  {
    if k == 0 then []
    else
      var r := Split(cs, best, top, k - 1);
      if cs[k - 1].live && (cs[k - 1].score == best) == top then r + [k - 1] else r
  }

  /** The split holds exactly the matching live contenders, in increasing seat order. */
  lemma {:induction false} SplitMembers(cs: seq<Contender>, best: seq<int>, top: bool, k: nat)
    requires k <= |cs|
    ensures forall x: nat :: x in Split(cs, best, top, k) <==> x < k && cs[x].live && (cs[x].score == best) == top
    ensures forall a :: 0 <= a < |Split(cs, best, top, k)| ==> Split(cs, best, top, k)[a] < k
    ensures forall a, b :: 0 <= a < b < |Split(cs, best, top, k)| ==> Split(cs, best, top, k)[a] < Split(cs, best, top, k)[b]
  {
    if k > 0 {
      SplitMembers(cs, best, top, k - 1);
    }
  }

  /**
   * `winners_and_losers`: the live seats with the top score, in seat
   * order, which is the order a stable sort by score keeps among equal
   * scores.
   */
  function Winners(cs: seq<Contender>): seq<nat>
    requires TopScore(cs, |cs|).Some?
  {
    Split(cs, TopScore(cs, |cs|).value, true, |cs|)
  }

  /**
   * The live seats whose score is not the top score, in seat order (the
   * source lists them by descending score; only their ids are kept).
   */
  function Losers(cs: seq<Contender>): seq<nat>
    requires TopScore(cs, |cs|).Some?
  {
    Split(cs, TopScore(cs, |cs|).value, false, |cs|)
  }

  /**
   * The split partitions the live players: there is at least one winner,
   * the winners share the top score, every loser scores strictly less,
   * and every live player is exactly one of a winner and a loser.
   */
  lemma WinnersAndLosersPartition(cs: seq<Contender>)
    requires TopScore(cs, |cs|).Some?
    ensures |Winners(cs)| > 0
    ensures forall w :: w in Winners(cs) ==> w < |cs| && cs[w].live && cs[w].score == TopScore(cs, |cs|).value
    ensures forall w, j :: w in Winners(cs) && 0 <= j < |cs| && cs[j].live ==>
              w < |cs| && TupleOrder.LessEq(cs[j].score, cs[w].score)
    ensures forall l :: l in Losers(cs) ==>
              l < |cs| && cs[l].live && TupleOrder.Less(cs[l].score, TopScore(cs, |cs|).value)
    ensures forall j :: 0 <= j < |cs| && cs[j].live ==> (j in Winners(cs) <==> j !in Losers(cs))
  {
    TopScoreIsMaximum(cs, |cs|);
    SplitMembers(cs, TopScore(cs, |cs|).value, true, |cs|);
    SplitMembers(cs, TopScore(cs, |cs|).value, false, |cs|);
    var j :| 0 <= j < |cs| && cs[j].live && cs[j].score == TopScore(cs, |cs|).value;
    assert j in Winners(cs);
  }

  // ---------------------------------------------------------------------
  // The show-or-muck window

  /** Every entry of the window has a decision. */
  predicate AllDecided(m: map<int, Option<Decision>>)
  {
    forall u :: u in m ==> m[u].Some?
  }

  /**
   * `resolve_show_or_muck`, its state part: outside a window, or for a
   * user the window does not wait for, nothing changes; otherwise that
   * user's entry records the decision.
   */
  function ResolveState(s: State, userId: int, action: Decision): State
  {
    if !s.showdownPending || userId !in s.pendingShow then s
    else s.(pendingShow := s.pendingShow[userId := Some(action)])
  }

  /**
   * Recording a decision never changes who the window waits for, never
   * touches another user's entry, and leaves that user decided.
   */
  lemma ResolveTouchesOneEntry(s: State, userId: int, action: Decision)
    ensures ResolveState(s, userId, action).pendingShow.Keys == s.pendingShow.Keys
    ensures forall u :: u in s.pendingShow && u != userId ==>
              ResolveState(s, userId, action).pendingShow[u] == s.pendingShow[u]
    ensures s.showdownPending && userId in s.pendingShow ==>
              ResolveState(s, userId, action).pendingShow[userId] == Some(action)
    ensures ResolveState(s, userId, action).(pendingShow := s.pendingShow) == s
  {
  }

  // ---------------------------------------------------------------------
  // The objects

  /** The highest score among the live contenders, scanning in seat order. */
  method TopLiveScore(cs: seq<Contender>) returns (best: Option<seq<int>>)
    ensures best == TopScore(cs, |cs|)
  {
    best := None;
    for i := 0 to |cs|
      invariant best == TopScore(cs, i)
    {
      if cs[i].live && (best.None? || TupleOrder.Less(best.value, cs[i].score)) {
        best := Some(cs[i].score);
      }
    }
  }

  /** The winners and the losers among the contenders: the top live score found first, then the split. */
  method SplitLive(cs: seq<Contender>) returns (winners: seq<nat>, losers: seq<nat>)
    requires TopScore(cs, |cs|).Some?
    ensures winners == Winners(cs) && losers == Losers(cs)
  {
    var best := TopLiveScore(cs);
    winners, losers := SplitByScore(cs, best.value);
  }

  /** The live contenders split by whether their score is `top`, in seat order. */
  method SplitByScore(cs: seq<Contender>, top: seq<int>) returns (winners: seq<nat>, losers: seq<nat>)
    ensures winners == Split(cs, top, true, |cs|)
    ensures losers == Split(cs, top, false, |cs|)
  {
    winners, losers := [], [];
    for i := 0 to |cs|
      invariant winners == Split(cs, top, true, i)
      invariant losers == Split(cs, top, false, i)
    {
      if cs[i].live {
        if cs[i].score == top {
          winners := winners + [i];
        } else {
          losers := losers + [i];
        }
      }
    }
  }

  /** `Player`: one seated user. */
  class Player {
    const userId: int
    const name: string
    var stack: int
    var hole: seq<Card>
    var folded: bool
    var committed: int

    /** A new player: no chips, no cards. */
    constructor (userId: int, name: string)
      ensures View() == NewSeat(userId, name)
    {
      this.userId := userId;
      this.name := name;
      stack := 0;
      hole := [];
      folded := false;
      committed := 0;
    }

    /** The player's fields now. */
    function View(): Seat
      reads this
    {
      Seat(userId, name, stack, hole, folded, committed)
    }

    /** `reset_for_hand`: the stack is kept, everything from the last hand is cleared. */
    method ResetForHand()
      modifies this
      ensures View() == ResetSeat(old(View()))
    {
      hole := [];
      folded := false;
      committed := 0;
    }
  }

  /** The fields of each player, in order. */
  function Views(ps: seq<Player>): (r: seq<Seat>)
    reads ps
    ensures |r| == |ps| && forall i :: 0 <= i < |ps| ==> r[i] == ps[i].View()
  {
    seq(|ps|, i reads ps requires 0 <= i < |ps| => ps[i].View())
  }

  /** `PokerTable`: the table of one channel. */
  class PokerTable {
    const channelId: int
    const sb: int
    const bb: int
    const minBuyin: int
    const maxBuyin: int

    var players: seq<Player>
    var deck: seq<Card>
    var pot: int
    var currentBet: int
    var turnIdx: Option<nat>
    var board: seq<Card>
    var street: Street
    var acted: set<int>
    var dealerIdx: nat
    var handCount: nat
    var showdownPending: bool
    var pendingType: Option<PendingKind>
    var pendingShow: map<int, Option<Decision>>

    constructor (channelId: int, sb: int, bb: int, minBuyin: int, maxBuyin: int)
      ensures Valid()
      ensures Snapshot() == Initial(Rules(sb, bb, minBuyin, maxBuyin))
    {
      this.channelId := channelId;
      this.sb := sb;
      this.bb := bb;
      this.minBuyin := minBuyin;
      this.maxBuyin := maxBuyin;
      players := [];
      deck := [];
      pot := 0;
      currentBet := 0;
      turnIdx := None;
      board := [];
      street := Idle;
      acted := {};
      dealerIdx := 0;
      handCount := 0;
      showdownPending := false;
      pendingType := None;
      pendingShow := map[];
      new;
      InitialInvariant(Rules(sb, bb, minBuyin, maxBuyin));
    }

    /** Every player's fields now, in seat order. */
    function Seats(): seq<Seat>
      reads this`players, players
    {
      Views(players)
    }

    /** The table's fields now. */
    function Snapshot(): State
      reads this, players
    {
      State(Rules(sb, bb, minBuyin, maxBuyin), Seats(), deck, pot, currentBet, turnIdx, board,
            street, acted, dealerIdx, handCount, showdownPending, pendingType, pendingShow)
    }

    ghost predicate Valid()
      reads this, players
    {
      Invariant(Snapshot())
    }

    /** Different seats hold different player objects. */
    lemma DistinctPlayers()
      requires Valid()
      ensures DistinctIds()
    {
      assert forall i :: 0 <= i < |players| ==> Seats()[i].userId == players[i].userId;
    }

    /** The seat of `userId`, searching the players in seat order. */
    method IndexOf(userId: int) returns (idx: Option<nat>)
      ensures idx == SeatIndex(Seats(), userId)
    {
      var i := 0;
      while i < |players|
        invariant 0 <= i <= |players|
        invariant forall j :: 0 <= j < i ==> players[j].userId != userId
      {
        if players[i].userId == userId {
          assert Seats()[i].userId == userId;
          return Some(i);
        }
        i := i + 1;
      }
      return None;
    }

    /**
     * `add_player`: refused when the user already holds a seat; otherwise
     * a new player with no chips takes the next seat.
     */
    method AddPlayer(userId: int, name: string) returns (ok: bool)
      requires Valid()
      modifies this
      ensures Valid()
      ensures ok <==> SeatIndex(old(Seats()), userId).None?
      ensures ok ==> Snapshot() == old(Snapshot()).(seats := old(Seats()) + [NewSeat(userId, name)])
      ensures !ok ==> Snapshot() == old(Snapshot()) && players == old(players)
    {
      var idx := IndexOf(userId);
      if idx.Some? {
        return false;
      }
      var p := new Player(userId, name);
      players := players + [p];
      ok := true;
      assert Seats() == old(Seats()) + [NewSeat(userId, name)];
      AddKeepsIdsUnique(old(Seats()), userId, name);
    }

    /** `deck.pop()`: the last card of the deck, which leaves it. */
    method PopDeck() returns (c: Card)
      requires |deck| > 0
      modifies this`deck
      ensures c == old(deck)[|old(deck)| - 1] && deck == old(deck)[..|old(deck)| - 1]
    {
      c := deck[|deck| - 1];
      deck := deck[..|deck| - 1];
    }

    /**
     * `set_buyin`: refused outside the buy-in range, for an unseated user
     * or for a player who still has chips; otherwise that player's stack
     * becomes the amount.
     */
    method SetBuyin(userId: int, amount: int) returns (r: BuyinResult)
      requires Valid()
      modifies players
      ensures Valid()
      ensures r == BuyinOutcome(old(Snapshot()), userId, amount)
      ensures Snapshot() == BuyinState(old(Snapshot()), userId, amount)
    {
      if amount < minBuyin || amount > maxBuyin {
        return OutOfRange;
      }
      var idx := IndexOf(userId);
      if idx.None? {
        return NotSeated;
      }
      var i := idx.value;
      var p := players[i];
      if p.stack > 0 {
        return AlreadyBoughtIn;
      }
      DistinctPlayers();
      p.stack := amount;
      assert Seats() == old(Seats())[i := old(Seats())[i].(stack := amount)];
      BuyinEffect(old(Snapshot()), userId, amount);
      return BoughtIn;
    }

    /** No two seats hold the same user, so no two seats hold the same object. */
    predicate DistinctIds()
      reads this`players
    {
      forall i, j :: 0 <= i < j < |players| ==> players[i].userId != players[j].userId
    }

    /** The seats are `target`, player by player. */
    lemma SeatsAre(target: seq<Seat>)
      requires |target| == |players|
      requires forall j :: 0 <= j < |players| ==> players[j].View() == target[j]
      ensures Seats() == target
    {
    }

    /** `reset_for_hand` on every player, in seat order. */
    method ResetPlayers()
      requires DistinctIds()
      modifies players
      ensures players == old(players)
      ensures forall j :: 0 <= j < |players| ==> players[j].View() == ResetSeat(old(Seats())[j])
    {
      for i := 0 to |players|
        invariant forall j :: 0 <= j < i ==> players[j].View() == ResetSeat(old(players[j].View()))
        invariant forall j :: i <= j < |players| ==> players[j].View() == old(players[j].View())
      {
        players[i].ResetForHand();
      }
    }

    /** The per-hand fields that dealing and posting blinds leave alone. */
    function HandMarks(): (Street, seq<Card>, set<int>, nat, bool, Option<PendingKind>, map<int, Option<Decision>>)
      reads this`street, this`board, this`acted, this`handCount, this`showdownPending, this`pendingType, this`pendingShow
    {
      (street, board, acted, handCount, showdownPending, pendingType, pendingShow)
    }

    /** The fields the blinds set and dealing leaves alone. */
    function BetMarks(): (nat, int, int, Option<nat>)
      reads this`dealerIdx, this`pot, this`currentBet, this`turnIdx
    {
      (dealerIdx, pot, currentBet, turnIdx)
    }

    /** One dealing round: each seat in turn takes the card popped off the end of the deck. */
    method DealRound(ghost before: seq<Seat>) returns (ghost after: seq<Seat>)
      requires DistinctIds() && |players| <= |deck| && |before| == |players|
      requires forall j :: 0 <= j < |players| ==> players[j].View() == before[j]
      modifies this`deck, players
      ensures deck == old(deck)[..|old(deck)| - |players|] && |after| == |players|
      ensures players == old(players) && BetMarks() == old(BetMarks()) && HandMarks() == old(HandMarks())
      ensures forall j :: 0 <= j < |players| ==> players[j].View() == after[j]
      ensures forall j :: 0 <= j < |players| ==>
                after[j] == before[j].(hole := before[j].hole + [old(deck)[|old(deck)| - 1 - j]])
    {
      for i := 0 to |players|
        invariant deck == old(deck)[..|old(deck)| - i]
        invariant players == old(players) && BetMarks() == old(BetMarks()) && HandMarks() == old(HandMarks())
        invariant forall j :: 0 <= j < i ==>
                    players[j].View() == before[j].(hole := before[j].hole + [old(deck)[|old(deck)| - 1 - j]])
        invariant forall j :: i <= j < |players| ==> players[j].View() == before[j]
      {
        var c := PopDeck();
        players[i].hole := players[i].hole + [c];
      }
      after := Views(players);
    }

    /** Two dealing rounds, so seat `j` ends with the `j`-th and the `(n + j)`-th cards popped. */
    method DealHoleCards(ghost s0: State, ghost newDeck: seq<Card>)
      requires |s0.seats| == |players| >= 2 && 2 * |players| <= |newDeck|
      requires DistinctIds()
      requires deck == newDeck
      requires forall j :: 0 <= j < |players| ==> players[j].View() == PostedSeat(s0, j)
      modifies this`deck, players
      ensures deck == newDeck[..|newDeck| - 2 * |players|] && HandMarks() == old(HandMarks())
      ensures BetMarks() == old(BetMarks()) && players == old(players)
      ensures forall j :: 0 <= j < |players| ==> players[j].View() == DealtSeat(s0, newDeck, j)
    {
      ghost var n, L := |players|, |newDeck|;
      ghost var posted := seq(n, j requires 0 <= j < n => PostedSeat(s0, j));
      ghost var once := DealRound(posted);
      ghost var mid := deck;
      ghost var twice := DealRound(once);
      forall j | 0 <= j < n
        ensures players[j].View() == DealtSeat(s0, newDeck, j)
      {
        assert once[j] == PostedSeat(s0, j).(hole := [newDeck[L - 1 - j]]);
        assert mid[|mid| - 1 - j] == newDeck[L - 1 - n - j];
        assert twice[j] == once[j].(hole := once[j].hole + [newDeck[L - 1 - n - j]]);
        SecondCard(s0, newDeck, j);
      }
    }

    /** A seat that took one card in each round holds exactly the two cards `Dealt` names. */
    static lemma SecondCard(s0: State, newDeck: seq<Card>, j: nat)
      requires |s0.seats| >= 2 && j < |s0.seats| && 2 * |s0.seats| <= |newDeck|
      ensures var L, n := |newDeck|, |s0.seats|;
              PostedSeat(s0, j).(hole := [newDeck[L - 1 - j]] + [newDeck[L - 1 - n - j]]) == DealtSeat(s0, newDeck, j)
    {
    }

    /**
     * The dealer moves one seat on and posts `min(sb, stack)`, the next
     * seat posts `min(bb, stack)`, the bet to match is the big blind's
     * post and the seat after the big blind is to act.
     */
    method PostBlinds(ghost s0: State)
      requires |s0.seats| == |players| >= 2 && DistinctIds()
      requires s0.dealerIdx == dealerIdx && s0.rules.sb == sb && s0.rules.bb == bb
      requires forall j :: 0 <= j < |players| ==> players[j].View() == ResetSeat(s0.seats[j])
      modifies this`dealerIdx, this`pot, this`currentBet, this`turnIdx, players
      ensures dealerIdx == SmallBlindSeat(s0)
      ensures pot == old(pot) + Post(s0, SmallBlindSeat(s0)) + Post(s0, BigBlindSeat(s0))
      ensures currentBet == Post(s0, BigBlindSeat(s0))
      ensures turnIdx == Some((BigBlindSeat(s0) + 1) % |players|) && HandMarks() == old(HandMarks())
      ensures players == old(players)
      ensures forall j :: 0 <= j < |players| ==> players[j].View() == PostedSeat(s0, j)
    {
      var n := |players|;
      dealerIdx := (dealerIdx + 1) % n;
      var sbIdx := dealerIdx;
      var bbIdx := (dealerIdx + 1) % n;
      assert sbIdx == SmallBlindSeat(s0) && bbIdx == BigBlindSeat(s0);
      var sbPost := PostBlindAt(sbIdx, sb);
      assert players[sbIdx].View() == PostedSeat(s0, sbIdx);
      var bbPost := PostBlindAt(bbIdx, bb);
      assert players[bbIdx].View() == PostedSeat(s0, bbIdx);
      pot := pot + sbPost + bbPost;
      currentBet := bbPost;
      turnIdx := Some((bbIdx + 1) % n);
    }

    /** Seat `i` posts `min(blind, stack)`: its stack pays it and it becomes the seat's commitment. */
    method PostBlindAt(i: nat, blind: int) returns (posted: int)
      requires i < |players| && DistinctIds()
      modifies players[i]
      ensures posted == RankAnalysis.Min(blind, old(players[i].stack))
      ensures players[i].View() == old(players[i].View()).(stack := old(players[i].stack) - posted, committed := posted)
      ensures forall j :: 0 <= j < |players| && j != i ==> players[j].View() == old(players[j].View())
    {
      var p := players[i];
      posted := RankAnalysis.Min(blind, p.stack);
      p.stack := p.stack - posted;
      p.committed := posted;
    }

    /** The fresh deck, an empty pot, board and acted set, preflop, one more hand, no window. */
    method StartHandFields(newDeck: seq<Card>)
      modifies this`deck, this`pot, this`currentBet, this`board, this`street, this`acted,
               this`handCount, this`showdownPending, this`pendingType, this`pendingShow
      ensures deck == newDeck && pot == 0 && currentBet == 0 && board == [] && street == Preflop
      ensures acted == {} && handCount == old(handCount) + 1
      ensures !showdownPending && pendingType == None && pendingShow == map[]
    {
      deck := newDeck;
      pot := 0;
      currentBet := 0;
      board := [];
      street := Preflop;
      acted := {};
      handCount := handCount + 1;
      showdownPending := false;
      pendingType := None;
      pendingShow := map[];
    }

    /** The table after the steps of `begin_hand` is `BeginHandState`, and still valid. */
    lemma BeginHandAssembled(s0: State, newDeck: seq<Card>)
      requires Invariant(s0) && |s0.seats| == |players| >= 2 && 2 * |players| + 5 <= |newDeck|
      requires s0.rules == Rules(sb, bb, minBuyin, maxBuyin) && handCount == s0.handCount + 1
      requires deck == newDeck[..|newDeck| - 2 * |players|]
      requires forall j :: 0 <= j < |players| ==> players[j].View() == DealtSeat(s0, newDeck, j)
      requires dealerIdx == SmallBlindSeat(s0)
      requires pot == 0 + Post(s0, SmallBlindSeat(s0)) + Post(s0, BigBlindSeat(s0))
      requires currentBet == Post(s0, BigBlindSeat(s0))
      requires turnIdx == Some((BigBlindSeat(s0) + 1) % |players|)
      requires board == [] && street == Preflop && acted == {}
      requires !showdownPending && pendingType == None && pendingShow == map[]
      ensures Snapshot() == BeginHandState(s0, newDeck) && Valid()
    {
      SeatsAre(BeginHandState(s0, newDeck).seats);
      BeginHandInvariant(s0, newDeck);
    }

    /**
     * `begin_hand`: refused, changing nothing, unless at least two players
     * have chips. Otherwise every player is reset, the dealer moves one
     * seat on and posts the small blind, the next seat posts the big
     * blind, the seat after it is to act, and two rounds of cards are
     * dealt off the end of the new deck.
     */
    method BeginHand(newDeck: seq<Card>) returns (ok: bool)
      requires Valid()
      requires 2 * |players| + 5 <= |newDeck|
      modifies this, players
      ensures Valid() && players == old(players)
      ensures ok <==> Funded(old(Seats())) >= 2
      ensures ok ==> Snapshot() == BeginHandState(old(Snapshot()), newDeck)
      ensures !ok ==> Snapshot() == old(Snapshot())
    {
      if Funded(Seats()) < 2 {
        return false;
      }
      ghost var s0 := Snapshot();
      DistinctPlayers();
      ResetPlayers();
      StartHandFields(newDeck);
      ghost var marks := HandMarks();
      PostBlinds(s0);
      ghost var bets := BetMarks();
      DealHoleCards(s0, newDeck);
      assert HandMarks() == marks && BetMarks() == bets;
      BeginHandAssembled(s0, newDeck);
      return true;
    }

    /**
     * `everyone_matched`, scanning the players in seat order: folded and
     * all-in players are passed over, and the first live player who is
     * short of the bet or has not acted makes it false.
     */
    method EveryoneMatched() returns (b: bool)
      ensures b == Matched(Snapshot())
    {
      for i := 0 to |players|
        invariant forall j :: 0 <= j < i && !players[j].folded && players[j].stack != 0 ==>
                    players[j].committed >= currentBet && players[j].userId in acted
      {
        var p := players[i];
        if p.folded {
          continue;
        }
        if p.stack == 0 {
          continue;
        }
        if p.committed < currentBet {
          assert Seats()[i] == p.View();
          return false;
        }
        if p.userId !in acted {
          assert Seats()[i] == p.View();
          return false;
        }
      }
      return true;
    }

    /** The table's own fields besides the players. */
    function TableFields(): (seq<Card>, int, int, Option<nat>, seq<Card>, Street, set<int>, nat, nat, bool,
                             Option<PendingKind>, map<int, Option<Decision>>)
      reads this`deck, this`pot, this`currentBet, this`turnIdx, this`board, this`street, this`acted,
            this`dealerIdx, this`handCount, this`showdownPending, this`pendingType, this`pendingShow
    {
      (deck, pot, currentBet, turnIdx, board, street, acted, dealerIdx, handCount, showdownPending,
       pendingType, pendingShow)
    }

    /** Every commitment back to 0. */
    method ClearCommitments()
      requires DistinctIds()
      modifies players
      ensures TableFields() == old(TableFields())
      ensures forall j :: 0 <= j < |players| ==> players[j].View() == old(players[j].View()).(committed := 0)
    {
      for i := 0 to |players|
        invariant forall j :: 0 <= j < i ==> players[j].View() == old(players[j].View()).(committed := 0)
        invariant forall j :: i <= j < |players| ==> players[j].View() == old(players[j].View())
      {
        players[i].committed := 0;
      }
    }

    /** The street change and the board cards it pops off the deck. */
    method DealStreet()
      requires Drawn(street) <= |deck|
      modifies this`deck, this`board, this`street
      ensures street == NextOf(old(street))
      ensures board == old(board) + Popped(old(deck), Drawn(old(street)))
      ensures deck == old(deck)[..|old(deck)| - Drawn(old(street))]
    {
      match street {
        case Preflop =>
          var c1 := PopDeck();
          var c2 := PopDeck();
          var c3 := PopDeck();
          board := board + [c1, c2, c3];
          street := Flop;
        case Flop =>
          var c := PopDeck();
          board := board + [c];
          street := Turn;
        case Turn =>
          var c := PopDeck();
          board := board + [c];
          street := River;
        case River =>
          street := Showdown;
        case _ =>
      }
    }

    /**
     * `next_street`: clears the round (acted set, commitments, bet), deals
     * the board cards of the next street and gives the turn to seat 0.
     */
    method NextStreet()
      requires Valid() && |players| > 0
      modifies this, players
      ensures Valid() && players == old(players)
      ensures Snapshot() == NextStreetState(old(Snapshot()))
    {
      ghost var s0 := Snapshot();
      DeckCoversNextStreet(s0);
      DistinctPlayers();
      acted := {};
      ghost var fields := TableFields();
      ClearCommitments();
      assert TableFields() == fields;
      currentBet := 0;
      DealStreet();
      turnIdx := Some(0);
      NextStreetAssembled(s0);
    }

    /** The table after the steps of `next_street` is `NextStreetState`, and still valid. */
    lemma NextStreetAssembled(s0: State)
      requires Invariant(s0) && |s0.seats| == |players| > 0 && Drawn(s0.street) <= |s0.deck|
      requires s0.rules == Rules(sb, bb, minBuyin, maxBuyin)
      requires forall j :: 0 <= j < |players| ==> players[j].View() == s0.seats[j].(committed := 0)
      requires acted == {} && currentBet == 0 && turnIdx == Some(0)
      requires street == NextOf(s0.street)
      requires board == s0.board + Popped(s0.deck, Drawn(s0.street))
      requires deck == s0.deck[..|s0.deck| - Drawn(s0.street)]
      requires pot == s0.pot && dealerIdx == s0.dealerIdx && handCount == s0.handCount
      requires showdownPending == s0.showdownPending && pendingType == s0.pendingType
      requires pendingShow == s0.pendingShow
      ensures Snapshot() == NextStreetState(s0) && Valid()
    {
      SeatsAre(NextStreetState(s0).seats);
      NextStreetInvariant(s0);
    }

    /** Each seat still in or not, with the score of its cards and the board. */
    function Ranked(): seq<Contender>
      requires |board| == 5
      reads this, players
    {
      seq(|players|, i reads this, players requires 0 <= i < |players| && |board| == 5 =>
        Contender(!players[i].folded, HandEvaluator.BestHand(players[i].hole + board).score))
    }

    lemma RankedContenders()
      requires |board| == 5
      ensures Ranked() == Contenders(Snapshot())
    {
      assert forall i :: 0 <= i < |players| ==> Seats()[i] == players[i].View();
    }

    /**
     * `winners_and_losers`: the live players with the best score, and the
     * other live players.
     */
    method WinnersAndLosers() returns (winners: seq<nat>, losers: seq<nat>)
      requires |board| == 5
      requires exists i :: 0 <= i < |players| && !players[i].folded
      ensures TopScore(Contenders(Snapshot()), |players|).Some?
      ensures winners == Winners(Contenders(Snapshot()))
      ensures losers == Losers(Contenders(Snapshot()))
    {
      ghost var s := Snapshot();
      ghost var live :| 0 <= live < |players| && !players[live].folded;
      assert !s.seats[live].folded;
      LiveContender(s, live);
      RankedContenders();
      var cs := Ranked();
      assert cs == Contenders(s);
      winners, losers := SplitLive(cs);
    }

    /** `start_fold_winner_window`: the window waits for the winner alone. */
    method StartFoldWinnerWindow(winnerId: int)
      modifies this`showdownPending, this`pendingType, this`pendingShow
      ensures Snapshot() == old(Snapshot()).(showdownPending := true, pendingType := Some(FoldWindow),
                                              pendingShow := map[winnerId := None])
    {
      showdownPending := true;
      pendingType := Some(FoldWindow);
      pendingShow := map[winnerId := None];
    }

    /**
     * `resolve_show_or_muck`, its state part: records the decision, and
     * says whether every entry is now decided (the caller then finishes
     * the hand).
     */
    method ResolveShowOrMuck(userId: int, action: Decision) returns (finished: bool)
      modifies this`pendingShow
      ensures Snapshot() == ResolveState(old(Snapshot()), userId, action)
      ensures finished <==> old(showdownPending) && userId in old(pendingShow) && AllDecided(pendingShow)
    {
      if !showdownPending || userId !in pendingShow {
        return false;
      }
      pendingShow := pendingShow[userId := Some(action)];
      finished := forall u | u in pendingShow :: pendingShow[u].Some?;
    }
  }
}
