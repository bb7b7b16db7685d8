/**
 * The end of a hand (showdown.py): paying the pot to the best hands,
 * the losers' show-or-muck window with its automatic muck, closing the
 * hand and starting the next one, and the all-in runout.
 *
 * The functions say what each step does to a `State`; the methods do it
 * to a `PokerTable` and promise exactly that. Every step that can start
 * the next hand takes the shuffled deck that hand would be dealt from.
 */
module Showdown {
  import opened Wrappers
  import opened Cards
  import opened Table
  import RankAnalysis

  // ---------------------------------------------------------------------
  // Finishing a hand

  /**
   * `finish_hand`: the window closes, and the next hand begins when at
   * least two players have chips.
   */
  function FinishState(s: State, deck: seq<Card>): State
    requires 2 * |s.seats| + 5 <= |deck|
  {
    var closed := s.(showdownPending := false, pendingShow := map[], pendingType := None);
    if Funded(closed.seats) < 2 then closed else BeginHandState(closed, deck)
  }

  /**
   * Finishing keeps the table valid and always closes the window. With
   * fewer than two funded players nothing else changes; otherwise a new
   * pre-flop hand is dealt and the chips are what the stacks held (the
   * pot, if any was left, does not carry over).
   */
  lemma FinishEffect(s: State, deck: seq<Card>)
    requires Invariant(s) && 2 * |s.seats| + 5 <= |deck|
    ensures Invariant(FinishState(s, deck))
    ensures |FinishState(s, deck).seats| == |s.seats|
    ensures Funded(s.seats) < 2 ==>
              FinishState(s, deck) == s.(showdownPending := false, pendingShow := map[], pendingType := None)
    ensures Funded(s.seats) >= 2 ==>
              FinishState(s, deck).street == Preflop
              && FinishState(s, deck).handCount == s.handCount + 1
              && !FinishState(s, deck).showdownPending
              && FinishState(s, deck).pendingShow == map[]
              && Chips(FinishState(s, deck)) == Stacks(s.seats)
  {
    var closed := s.(showdownPending := false, pendingShow := map[], pendingType := None);
    if Funded(closed.seats) >= 2 {
      BeginHandInvariant(closed, deck);
      BlindsConserveChips(closed, deck);
    }
  }

  // ---------------------------------------------------------------------
  // Paying the pot

  /** What winner number `a` of `k` receives: `pot // k`, plus one while `a < pot % k`. */
  function Share(pot: int, k: nat, a: nat): int
    requires k > 0
  {
    pot / k + (if a < pot % k then 1 else 0)
  }

  /** What the first `i` of `k` winners receive together. */
  function PaidOut(pot: int, k: nat, i: nat): int
    requires k > 0
  {
    if i == 0 then 0 else PaidOut(pot, k, i - 1) + Share(pot, k, i - 1)
  }

  /** The first `i` shares hold `i` times `pot // k` and one chip for each of them below `pot % k`. */
  lemma {:induction false} PaidOutSoFar(pot: int, k: nat, i: nat)
    requires k > 0
    ensures PaidOut(pot, k, i) == i * (pot / k) + RankAnalysis.Min(i, pot % k)
  {
    if i > 0 {
      PaidOutSoFar(pot, k, i - 1);
      assert i * (pot / k) == (i - 1) * (pot / k) + pot / k;
    }
  }

  /** The `k` shares add up to the pot: no chip is lost or made. */
  lemma SharesMakeThePot(pot: int, k: nat)
    requires k > 0
    ensures PaidOut(pot, k, k) == pot
    ensures forall a, b :: 0 <= a < b < k ==> Share(pot, k, b) <= Share(pot, k, a) <= Share(pot, k, b) + 1
  {
    PaidOutSoFar(pot, k, k);
  }

  /** No index appears twice, and every one names a seat. */
  predicate Increasing(idx: seq<nat>, n: nat)
  {
    (forall a :: 0 <= a < |idx| ==> idx[a] < n)
    && forall a, b :: 0 <= a < b < |idx| ==> idx[a] < idx[b]
  }

  /** The seats once the first `i` winners have been paid their shares, in order. */
  function Credit(seats: seq<Seat>, winners: seq<nat>, pot: int, i: nat): (r: seq<Seat>)
    requires i <= |winners| && forall a :: 0 <= a < |winners| ==> winners[a] < |seats|
    ensures |r| == |seats|
  {
    if i == 0 then seats
    else
      var r := Credit(seats, winners, pot, i - 1);
      var w := winners[i - 1];
      r[w := r[w].(stack := r[w].stack + Share(pot, |winners|, i - 1))]
  }

  /** Paying the first `i` winners changes nothing but stacks. */
  lemma {:induction false} CreditKeepsSeats(seats: seq<Seat>, winners: seq<nat>, pot: int, i: nat)
    requires i <= |winners| && Increasing(winners, |seats|)
    ensures forall j :: 0 <= j < |seats| ==>
              Credit(seats, winners, pot, i)[j] == seats[j].(stack := Credit(seats, winners, pot, i)[j].stack)
  {
    if i > 0 {
      CreditKeepsSeats(seats, winners, pot, i - 1);
    }
  }

  /**
   * Paying the first `i` winners gives winner number `a` its share and
   * leaves every seat that is not among them as it was.
   */
  lemma {:induction false} CreditPaysWinners(seats: seq<Seat>, winners: seq<nat>, pot: int, i: nat)
    requires i <= |winners| && Increasing(winners, |seats|)
    ensures forall a :: 0 <= a < i ==>
              Credit(seats, winners, pot, i)[winners[a]].stack == seats[winners[a]].stack + Share(pot, |winners|, a)
    ensures forall j :: 0 <= j < |seats| && (forall a :: 0 <= a < i ==> winners[a] != j) ==>
              Credit(seats, winners, pot, i)[j] == seats[j]
  {
    if i > 0 {
      CreditPaysWinners(seats, winners, pot, i - 1);
      var w := winners[i - 1];
      assert forall a :: 0 <= a < i - 1 ==> winners[a] != w;
    }
  }

  /** Paying the first `i` winners adds exactly what they were paid to the stacks. */
  lemma {:induction false} CreditTotal(seats: seq<Seat>, winners: seq<nat>, pot: int, i: nat)
    requires 0 < i <= |winners| && Increasing(winners, |seats|)
    ensures Stacks(Credit(seats, winners, pot, i)) == Stacks(seats) + PaidOut(pot, |winners|, i)
  {
    var r := Credit(seats, winners, pot, i - 1);
    var w := winners[i - 1];
    if i > 1 {
      CreditTotal(seats, winners, pot, i - 1);
    }
    StacksUpdate(r, w, r[w].(stack := r[w].stack + Share(pot, |winners|, i - 1)));
  }

  /** Someone is still in the hand. */
  predicate AnyLive(seats: seq<Seat>)
  {
    exists i :: 0 <= i < |seats| && !seats[i].folded
  }

  /** With the board complete, there is a top score exactly when someone is still in. */
  lemma TopScoreWhenLive(s: State)
    requires |s.board| == 5
    ensures TopScore(Contenders(s), |s.seats|).Some? <==> AnyLive(s.seats)
  {
    TopScoreIsMaximum(Contenders(s), |s.seats|);
  }

  /** The user ids of the seats in `idx`. */
  function IdsOf(seats: seq<Seat>, idx: seq<nat>): set<int>
    requires forall a :: 0 <= a < |idx| ==> idx[a] < |seats|
  {
    set a | 0 <= a < |idx| :: seats[idx[a]].userId
  }

  /** The winners are in increasing seat order, and so are the losers. */
  lemma SplitIncreasing(s: State)
    requires |s.board| == 5 && TopScore(Contenders(s), |s.seats|).Some?
    ensures Increasing(Winners(Contenders(s)), |s.seats|)
    ensures Increasing(Losers(Contenders(s)), |s.seats|)
  {
    var cs := Contenders(s);
    SplitMembers(cs, TopScore(cs, |cs|).value, true, |cs|);
    SplitMembers(cs, TopScore(cs, |cs|).value, false, |cs|);
  }

  /** The pot shared out among the seats `w` in order, the pot emptied, the street idle. */
  function Payout(s: State, w: seq<nat>): State
    requires Increasing(w, |s.seats|)
  {
    s.(seats := Credit(s.seats, w, s.pot, |w|), pot := 0, street := Idle)
  }

  /** The pot shared out among the winners in seat order. */
  function PaidState(s: State): State
    requires |s.board| == 5 && TopScore(Contenders(s), |s.seats|).Some?
  {
    SplitIncreasing(s);
    Payout(s, Winners(Contenders(s)))
  }

  /**
   * `begin_showdown`: with no one still in, the street goes idle and the
   * hand finishes. Otherwise the winners share the pot, and if every
   * live player won the hand finishes; if not, a showdown window opens
   * that waits for each loser, none of them decided.
   */
  function ShowdownState(s: State, deck: seq<Card>): State
    requires |s.board| == 5 && 2 * |s.seats| + 5 <= |deck|
  {
    var cs := Contenders(s);
    if TopScore(cs, |s.seats|).None? then FinishState(s.(street := Idle), deck)
    else
      var paid := PaidState(s);
      var losers := Losers(cs);
      if losers == [] then FinishState(paid, deck)
      else
        SplitIncreasing(s);
        paid.(showdownPending := true, pendingType := Some(ShowdownWindow),
              pendingShow := map u | u in IdsOf(s.seats, losers) :: None)
  }

  /**
   * Paying out: winner number `a` of `k` gets `pot // k`, and the first
   * `pot % k` of them one chip more; no other seat changes, nor anything
   * of a winner but the stack; the pot is emptied, no chip is lost, and
   * the table stays valid.
   */
  lemma PayoutEffect(s: State, w: seq<nat>)
    requires Invariant(s) && Increasing(w, |s.seats|) && |w| > 0
    ensures Invariant(Payout(s, w))
    ensures Chips(Payout(s, w)) == Chips(s)
    ensures Payout(s, w).pot == 0 && Payout(s, w).street == Idle && |Payout(s, w).seats| == |s.seats|
    ensures forall a :: 0 <= a < |w| ==> Payout(s, w).seats[w[a]].stack == s.seats[w[a]].stack + Share(s.pot, |w|, a)
    ensures forall j :: 0 <= j < |s.seats| && j !in w ==> Payout(s, w).seats[j] == s.seats[j]
    ensures forall j :: 0 <= j < |s.seats| ==> Payout(s, w).seats[j] == s.seats[j].(stack := Payout(s, w).seats[j].stack)
  {
    CreditKeepsSeats(s.seats, w, s.pot, |w|);
    CreditPaysWinners(s.seats, w, s.pot, |w|);
    CreditTotal(s.seats, w, s.pot, |w|);
    SharesMakeThePot(s.pot, |w|);
    var t := Payout(s, w);
    assert forall j :: 0 <= j < |s.seats| ==> t.seats[j].userId == s.seats[j].userId;
  }

  /** The ids of the losers are the ids of the live players who scored below the top score. */
  lemma LoserIds(s: State)
    requires |s.board| == 5 && TopScore(Contenders(s), |s.seats|).Some?
    ensures Increasing(Losers(Contenders(s)), |s.seats|)
    ensures forall u :: u in IdsOf(s.seats, Losers(Contenders(s))) <==>
              exists l :: 0 <= l < |s.seats| && !s.seats[l].folded
                && TupleOrder.Less(Score(s, l), TopScore(Contenders(s), |s.seats|).value)
                && s.seats[l].userId == u
  {
    var cs := Contenders(s);
    var top := TopScore(cs, |cs|).value;
    var losers := Losers(cs);
    SplitIncreasing(s);
    WinnersAndLosersPartition(cs);
    SplitMembers(cs, top, false, |cs|);
    var ids := IdsOf(s.seats, losers);
    forall u
      ensures u in ids <==>
                exists l :: 0 <= l < |s.seats| && !s.seats[l].folded && TupleOrder.Less(Score(s, l), top) && s.seats[l].userId == u
    {
      if u in ids {
        var a :| 0 <= a < |losers| && s.seats[losers[a]].userId == u;
        assert losers[a] in losers;
      }
      if exists l :: 0 <= l < |s.seats| && !s.seats[l].folded && TupleOrder.Less(Score(s, l), top) && s.seats[l].userId == u {
        var l :| 0 <= l < |s.seats| && !s.seats[l].folded && TupleOrder.Less(Score(s, l), top) && s.seats[l].userId == u;
        TupleOrder.LessIrreflexive(top);
        assert l in losers;
        var a :| 0 <= a < |losers| && losers[a] == l;
        assert u in ids;
      }
    }
  }

  /**
   * The showdown window, when it opens, waits for exactly the losers (the
   * live players who scored below the top score), none of them decided.
   */
  lemma ShowdownWindowWaitsForLosers(s: State, deck: seq<Card>)
    requires |s.board| == 5 && 2 * |s.seats| + 5 <= |deck|
    requires TopScore(Contenders(s), |s.seats|).Some? && Losers(Contenders(s)) != []
    ensures ShowdownState(s, deck).showdownPending
    ensures ShowdownState(s, deck).pendingType == Some(ShowdownWindow)
    ensures forall u :: u in ShowdownState(s, deck).pendingShow <==>
              exists l :: 0 <= l < |s.seats| && !s.seats[l].folded
                && TupleOrder.Less(Score(s, l), TopScore(Contenders(s), |s.seats|).value)
                && s.seats[l].userId == u
    ensures forall u :: u in ShowdownState(s, deck).pendingShow ==> ShowdownState(s, deck).pendingShow[u] == None
  {
    LoserIds(s);
    SplitIncreasing(s);
    WinnersAndLosersPartition(Contenders(s));
    assert ShowdownState(s, deck).pendingShow == map u | u in IdsOf(s.seats, Losers(Contenders(s))) :: None;
  }

  /** The showdown keeps the table valid and the number of seats. */
  lemma ShowdownInvariant(s: State, deck: seq<Card>)
    requires Invariant(s) && |s.board| == 5 && 2 * |s.seats| + 5 <= |deck|
    ensures Invariant(ShowdownState(s, deck))
    ensures |ShowdownState(s, deck).seats| == |s.seats|
  {
    var cs := Contenders(s);
    if TopScore(cs, |s.seats|).None? {
      FinishEffect(s.(street := Idle), deck);
    } else {
      SplitIncreasing(s);
      WinnersAndLosersPartition(cs);
      PayoutEffect(s, Winners(cs));
      FinishEffect(PaidState(s), deck);
    }
  }

  /** While someone is still in, the showdown moves chips but never makes or loses one. */
  lemma ShowdownKeepsChips(s: State, deck: seq<Card>)
    requires Invariant(s) && |s.board| == 5 && 2 * |s.seats| + 5 <= |deck|
    requires AnyLive(s.seats)
    ensures Chips(ShowdownState(s, deck)) == Chips(s)
  {
    TopScoreWhenLive(s);
    var cs := Contenders(s);
    SplitIncreasing(s);
    WinnersAndLosersPartition(cs);
    PayoutEffect(s, Winners(cs));
    var paid := PaidState(s);
    FinishEffect(paid, deck);
  }

  // ---------------------------------------------------------------------
  // The all-in runout

  /** `any(pl.stack == 0 for pl in alive)`: someone still in has no chips behind. */
  predicate AllInLive(seats: seq<Seat>)
  {
    exists i :: 0 <= i < |seats| && !seats[i].folded && seats[i].stack == 0
  }

  /** The test `handle_allin_runout` makes, as written: an all-in player and every bet matched. */
  predicate RunoutGuard(s: State)
  {
    AllInLive(s.seats) && Matched(s)
  }

  /**
   * The runout loop as written, `while street != "showdown": next_street()`,
   * followed for at most `fuel` passes: the state it stops in, or `None`
   * while it is still looping.
   */
  function RunOutAsWritten(s: State, fuel: nat): Option<State>
    requires Invariant(s) && |s.seats| > 0
    decreases fuel
  {
    if s.street == Showdown then Some(s)
    else if fuel == 0 then None
    else
      DeckCoversNextStreet(s);
      NextStreetInvariant(s);
      RunOutAsWritten(NextStreetState(s), fuel - 1)
  }

  /**
   * From a street of a hand the loop stops, after as many passes as there
   * are streets left (at most four), in the state `RunOut` describes.
   */
  lemma {:induction false} RunOutAsWrittenDuringHand(s: State)
    requires Invariant(s) && s.street != Idle
    ensures StreetsLeft(s.street) <= 4
    ensures RunOutAsWritten(s, StreetsLeft(s.street)) == Some(RunOut(s))
    decreases StreetsLeft(s.street)
  {
    if s.street != Showdown {
      DeckCoversNextStreet(s);
      NextStreetInvariant(s);
      NextStreetProgress(s);
      RunOutAsWrittenDuringHand(NextStreetState(s));
    }
  }

  /**
   * Between hands `next_street` leaves the street idle, so the loop as
   * written never stops: however many passes it is given, it is still
   * looping.
   */
  lemma {:induction false} RunOutAsWrittenNeverStopsWhenIdle(s: State, fuel: nat)
    requires Invariant(s) && |s.seats| > 0 && s.street == Idle
    ensures RunOutAsWritten(s, fuel) == None
    decreases fuel
  {
    if fuel > 0 {
      NextStreetInvariant(s);
      RunOutAsWrittenNeverStopsWhenIdle(NextStreetState(s), fuel - 1);
    }
  }

  /** The runout's test with the street check it needs: the runout only runs during a hand. */
  predicate RunoutFires(s: State)
  {
    s.street != Idle && RunoutGuard(s)
  }

  /**
   * `handle_allin_runout`: when it fires, the rest of the board is dealt
   * and the showdown follows; otherwise nothing changes.
   */
  function RunoutState(s: State, deck: seq<Card>): State
    requires Invariant(s) && 2 * |s.seats| + 5 <= |deck|
  {
    if !RunoutFires(s) then s
    else
      RunOutReachesShowdown(s);
      ShowdownState(RunOut(s), deck)
  }

  /** The runout changes no player's fold or stack. */
  lemma {:induction false} RunOutKeepsPlayers(s: State)
    requires Invariant(s) && s.street != Idle
    ensures |RunOut(s).seats| == |s.seats|
    ensures forall i :: 0 <= i < |s.seats| ==>
              RunOut(s).seats[i].folded == s.seats[i].folded && RunOut(s).seats[i].stack == s.seats[i].stack
    decreases StreetsLeft(s.street)
  {
    if s.street != Showdown {
      DeckCoversNextStreet(s);
      NextStreetInvariant(s);
      NextStreetProgress(s);
      RunOutKeepsPlayers(NextStreetState(s));
    }
  }

  /**
   * The runout keeps the table valid and every chip, and when it fires
   * the hand reaches its showdown and the street ends idle (or a new hand
   * is dealt).
   */
  lemma RunoutEffect(s: State, deck: seq<Card>)
    requires Invariant(s) && 2 * |s.seats| + 5 <= |deck|
    ensures Invariant(RunoutState(s, deck)) && |RunoutState(s, deck).seats| == |s.seats|
    ensures Chips(RunoutState(s, deck)) == Chips(s)
    ensures RunoutFires(s) ==> RunoutState(s, deck).street in {Idle, Preflop}
  {
    if RunoutFires(s) {
      RunOutReachesShowdown(s);
      RunOutKeepsPlayers(s);
      var r := RunOut(s);
      var i :| 0 <= i < |s.seats| && !s.seats[i].folded && s.seats[i].stack == 0;
      assert !r.seats[i].folded;
      ShowdownInvariant(r, deck);
      ShowdownKeepsChips(r, deck);
      ShowdownEnds(r, deck);
    }
  }

  /**
   * With no live hand at the showdown nobody is paid: the hand is simply
   * finished. The stacks are what they were, and when a next hand begins
   * its chips are those stacks, so the pot is gone.
   */
  lemma NobodyLiveShowdown(s: State, deck: seq<Card>)
    requires Invariant(s) && |s.board| == 5 && 2 * |s.seats| + 5 <= |deck|
    requires !AnyLive(s.seats)
    ensures ShowdownState(s, deck) == FinishState(s.(street := Idle), deck)
    ensures Funded(s.seats) < 2 ==>
              ShowdownState(s, deck).seats == s.seats && ShowdownState(s, deck).pot == s.pot
              && ShowdownState(s, deck).street == Idle
    ensures Funded(s.seats) >= 2 ==> Chips(ShowdownState(s, deck)) == Stacks(s.seats)
  {
    TopScoreWhenLive(s);
    FinishEffect(s.(street := Idle), deck);
  }

  /** After the showdown the street is idle, or pre-flop when the next hand was dealt. */
  lemma ShowdownEnds(s: State, deck: seq<Card>)
    requires |s.board| == 5 && 2 * |s.seats| + 5 <= |deck|
    ensures ShowdownState(s, deck).street in {Idle, Preflop}
  {
    var cs := Contenders(s);
    if TopScore(cs, |s.seats|).Some? {
      SplitIncreasing(s);
    }
  }

  // ---------------------------------------------------------------------
  // The automatic muck

  /**
   * The test the automatic muck makes once its seven seconds are up: the
   * user's entry is missing or undecided (`pending_show.get(uid) is
   * None`), and a showdown window is still open.
   */
  predicate AutoMuckFires(s: State, userId: int)
  {
    (userId !in s.pendingShow || s.pendingShow[userId].None?)
    && s.showdownPending && s.pendingType == Some(ShowdownWindow)
  }

  /** `auto_muck`: records a muck, and finishes the hand once every entry is decided. */
  function AutoMuckState(s: State, userId: int, deck: seq<Card>): State
    requires 2 * |s.seats| + 5 <= |deck|
  {
    if !AutoMuckFires(s, userId) then s
    else
      var m := s.(pendingShow := s.pendingShow[userId := Some(Muck)]);
      if AllDecided(m.pendingShow) then FinishState(m, deck) else m
  }

  /**
   * The automatic muck never overrides a decision already made, does
   * nothing once the window has closed or is a fold window, and
   * otherwise marks only that user as mucked (finishing the hand if that
   * was the last one undecided). It keeps the table valid.
   */
  lemma AutoMuckEffect(s: State, userId: int, deck: seq<Card>)
    requires Invariant(s) && 2 * |s.seats| + 5 <= |deck|
    ensures userId in s.pendingShow && s.pendingShow[userId].Some? ==> AutoMuckState(s, userId, deck) == s
    ensures !s.showdownPending || s.pendingType != Some(ShowdownWindow) ==> AutoMuckState(s, userId, deck) == s
    ensures AutoMuckFires(s, userId) && !AllDecided(s.pendingShow[userId := Some(Muck)]) ==>
              AutoMuckState(s, userId, deck) == s.(pendingShow := s.pendingShow[userId := Some(Muck)])
    ensures AutoMuckFires(s, userId) && AllDecided(s.pendingShow[userId := Some(Muck)]) ==>
              !AutoMuckState(s, userId, deck).showdownPending && AutoMuckState(s, userId, deck).pendingShow == map[]
    ensures Invariant(AutoMuckState(s, userId, deck))
  {
    if AutoMuckFires(s, userId) {
      FinishEffect(s.(pendingShow := s.pendingShow[userId := Some(Muck)]), deck);
    }
  }

  // ---------------------------------------------------------------------
  // On the table

  /** `finish_hand`: closes the window, then begins the next hand if two players have chips. */
  method FinishHand(t: PokerTable, nextDeck: seq<Card>) returns (started: bool)
    requires t.Valid() && 2 * |t.players| + 5 <= |nextDeck|
    modifies t, t.players
    ensures t.Valid() && t.players == old(t.players)
    ensures started <==> Funded(old(t.Seats())) >= 2
    ensures t.Snapshot() == FinishState(old(t.Snapshot()), nextDeck)
  {
    CloseWindow(t);
    if Funded(t.Seats()) < 2 {
      return false;
    }
    started := t.BeginHand(nextDeck);
  }

  /** The window closes: nothing pending, no kind, no entries. */
  method CloseWindow(t: PokerTable)
    requires t.Valid()
    modifies t`showdownPending, t`pendingShow, t`pendingType
    ensures t.Valid()
    ensures t.Snapshot() == old(t.Snapshot()).(showdownPending := false, pendingShow := map[], pendingType := None)
  {
    t.showdownPending := false;
    t.pendingShow := map[];
    t.pendingType := None;
  }

  /** The winners' shares, in order: `p.stack += share + (1 if i < remainder else 0)`. */
  method PayWinners(t: PokerTable, winners: seq<nat>)
    requires t.DistinctIds() && Increasing(winners, |t.players|) && |winners| > 0
    modifies t.players
    ensures t.TableFields() == old(t.TableFields())
    ensures forall j :: 0 <= j < |t.players| ==>
              t.players[j].View() == Credit(old(t.Seats()), winners, t.pot, |winners|)[j]
  {
    var share := t.pot / |winners|;
    var remainder := t.pot % |winners|;
    ghost var seats := t.Seats();
    for i := 0 to |winners|
      invariant forall j :: 0 <= j < |t.players| ==> t.players[j].View() == Credit(seats, winners, t.pot, i)[j]
    {
      var p := t.players[winners[i]];
      p.stack := p.stack + share + (if i < remainder then 1 else 0);
    }
  }

  /** The showdown, case by case, in the steps `begin_showdown` takes. */
  lemma ShowdownSteps(s: State, deck: seq<Card>)
    requires |s.board| == 5 && 2 * |s.seats| + 5 <= |deck| && AnyLive(s.seats)
    ensures TopScore(Contenders(s), |s.seats|).Some?
    ensures Increasing(Winners(Contenders(s)), |s.seats|) && |Winners(Contenders(s))| > 0
    ensures Increasing(Losers(Contenders(s)), |s.seats|)
    ensures Losers(Contenders(s)) == [] ==>
              ShowdownState(s, deck) == FinishState(Payout(s, Winners(Contenders(s))), deck)
    ensures Losers(Contenders(s)) != [] ==>
              ShowdownState(s, deck) ==
                Payout(s, Winners(Contenders(s))).(showdownPending := true, pendingType := Some(ShowdownWindow),
                  pendingShow := map u | u in IdsOf(s.seats, Losers(Contenders(s))) :: None)
  {
    TopScoreWhenLive(s);
    SplitIncreasing(s);
    WinnersAndLosersPartition(Contenders(s));
  }

  /** With nobody live, the showdown only goes idle and finishes the hand. */
  method ShowdownNobodyLive(t: PokerTable, nextDeck: seq<Card>)
    requires t.Valid() && |t.board| == 5 && 2 * |t.players| + 5 <= |nextDeck| && !AnyLive(t.Seats())
    modifies t, t.players
    ensures t.Valid() && t.players == old(t.players)
    ensures t.Snapshot() == ShowdownState(old(t.Snapshot()), nextDeck)
  {
    TopScoreWhenLive(t.Snapshot());
    GoIdle(t);
    var _ := FinishHand(t, nextDeck);
  }

  /** Paying the winners out of the pot, then `pot = 0` and `street = "idle"`. */
  method PayOut(t: PokerTable, winners: seq<nat>)
    requires t.Valid() && Increasing(winners, |t.players|) && |winners| > 0
    modifies t`pot, t`street, t.players
    ensures t.Valid() && t.players == old(t.players)
    ensures t.Snapshot() == Payout(old(t.Snapshot()), winners)
  {
    ghost var s0 := t.Snapshot();
    t.DistinctPlayers();
    PayWinners(t, winners);
    t.pot := 0;
    t.street := Idle;
    PaidOnTable(t, s0, winners);
  }

  /** Ends the hand: the street becomes idle. */
  method GoIdle(t: PokerTable)
    requires t.Valid()
    modifies t`street
    ensures t.Valid() && t.Snapshot() == old(t.Snapshot()).(street := Idle)
  {
    t.street := Idle;
  }

  /** The losers' window: pending, of the showdown kind, waiting for each loser. */
  method OpenShowdownWindow(t: PokerTable, ids: set<int>)
    requires t.Valid()
    modifies t`showdownPending, t`pendingType, t`pendingShow
    ensures t.Valid()
    ensures t.Snapshot() == old(t.Snapshot()).(showdownPending := true, pendingType := Some(ShowdownWindow),
                                                pendingShow := map u | u in ids :: None)
  {
    t.showdownPending := true;
    t.pendingType := Some(ShowdownWindow);
    t.pendingShow := map u | u in ids :: None;
  }

  /**
   * `begin_showdown`: the winners share the pot, and either the hand
   * finishes or a window opens for the losers to show or muck.
   */
  method BeginShowdown(t: PokerTable, nextDeck: seq<Card>)
    requires t.Valid() && |t.board| == 5 && 2 * |t.players| + 5 <= |nextDeck|
    modifies t, t.players
    ensures t.Valid() && t.players == old(t.players)
    ensures t.Snapshot() == ShowdownState(old(t.Snapshot()), nextDeck)
  {
    if !AnyLive(t.Seats()) {
      ShowdownNobodyLive(t, nextDeck);
      return;
    }
    ShowdownSteps(t.Snapshot(), nextDeck);
    var winners, losers := t.WinnersAndLosers();
    SettleShowdown(t, winners, losers, nextDeck);
  }

  /**
   * The rest of `begin_showdown` once the winners and losers are known:
   * the pot is paid out, then the hand finishes if no one lost, or else
   * the losers' window opens.
   */
  method SettleShowdown(t: PokerTable, winners: seq<nat>, losers: seq<nat>, nextDeck: seq<Card>)
    requires t.Valid() && 2 * |t.players| + 5 <= |nextDeck|
    requires Increasing(winners, |t.players|) && |winners| > 0 && Increasing(losers, |t.players|)
    modifies t, t.players
    ensures t.Valid() && t.players == old(t.players)
    ensures losers == [] ==> t.Snapshot() == FinishState(Payout(old(t.Snapshot()), winners), nextDeck)
    ensures losers != [] ==>
              t.Snapshot() == Payout(old(t.Snapshot()), winners).(showdownPending := true,
                pendingType := Some(ShowdownWindow), pendingShow := map u | u in IdsOf(old(t.Seats()), losers) :: None)
  {
    var ids := IdsOf(t.Seats(), losers);
    PayOut(t, winners);
    if losers == [] {
      var _ := FinishHand(t, nextDeck);
      return;
    }
    OpenShowdownWindow(t, ids);
  }

  /** Whether someone still in has no chips behind, read off the table. */
  method AllInOnTable(t: PokerTable) returns (b: bool)
    ensures b == AllInLive(t.Seats())
  {
    b := false;
    for i := 0 to |t.players|
      invariant !b <==> forall j :: 0 <= j < i ==> t.players[j].folded || t.players[j].stack != 0
    {
      if !t.players[i].folded && t.players[i].stack == 0 {
        b := true;
      }
    }
  }

  /**
   * `handle_allin_runout`, with the street check it needs: when someone
   * still in is all-in and every bet is matched during a hand, the
   * streets are dealt up to the showdown, which then pays out.
   */
  method HandleAllinRunout(t: PokerTable, nextDeck: seq<Card>) returns (ran: bool)
    requires t.Valid() && 2 * |t.players| + 5 <= |nextDeck|
    modifies t, t.players
    ensures t.Valid() && t.players == old(t.players)
    ensures ran <==> RunoutFires(old(t.Snapshot()))
    ensures t.Snapshot() == RunoutState(old(t.Snapshot()), nextDeck)
  {
    var allIn := AllInOnTable(t);
    var matched := t.EveryoneMatched();
    if t.street == Idle || !allIn || !matched {
      return false;
    }
    ghost var s0 := t.Snapshot();
    RunOutReachesShowdown(s0);
    while t.street != Showdown
      invariant t.Valid() && t.players == old(t.players) && |t.players| == |s0.seats|
      invariant t.street != Idle && RunOut(t.Snapshot()) == RunOut(s0)
      decreases StreetsLeft(t.street)
    {
      DeckCoversNextStreet(t.Snapshot());
      NextStreetProgress(t.Snapshot());
      t.NextStreet();
    }
    BeginShowdown(t, nextDeck);
    return true;
  }

  /**
   * `auto_muck` once its seven seconds are up: an undecided loser of a
   * showdown window is marked as mucked, and the hand finishes when every
   * entry is decided.
   */
  method AutoMuck(t: PokerTable, userId: int, nextDeck: seq<Card>) returns (finished: bool)
    requires t.Valid() && 2 * |t.players| + 5 <= |nextDeck|
    modifies t, t.players
    ensures t.Valid() && t.players == old(t.players)
    ensures finished <==> AutoMuckFires(old(t.Snapshot()), userId)
                          && AllDecided(old(t.pendingShow)[userId := Some(Muck)])
    ensures t.Snapshot() == AutoMuckState(old(t.Snapshot()), userId, nextDeck)
  {
    var undecided := userId !in t.pendingShow || t.pendingShow[userId].None?;
    if !(undecided && t.showdownPending && t.pendingType == Some(ShowdownWindow)) {
      return false;
    }
    t.pendingShow := t.pendingShow[userId := Some(Muck)];
    finished := AllDecided(t.pendingShow);
    if finished {
      var _ := FinishHand(t, nextDeck);
    }
  }

  /** After paying out the winners `w`, the table holds `Payout` of the table before. */
  lemma PaidOnTable(t: PokerTable, s0: State, w: seq<nat>)
    requires Invariant(s0) && Increasing(w, |s0.seats|) && |w| > 0
    requires |t.players| == |s0.seats| && s0.rules == Rules(t.sb, t.bb, t.minBuyin, t.maxBuyin)
    requires forall j :: 0 <= j < |t.players| ==> t.players[j].View() == Credit(s0.seats, w, s0.pot, |w|)[j]
    requires t.TableFields() == (s0.deck, 0, s0.currentBet, s0.turnIdx, s0.board, Idle, s0.acted, s0.dealerIdx,
                                 s0.handCount, s0.showdownPending, s0.pendingType, s0.pendingShow)
    ensures t.Snapshot() == Payout(s0, w) && t.Valid()
  {
    PayoutEffect(s0, w);
    assert t.Seats() == Payout(s0, w).seats;
  }
}
