/**
 * The betting commands of the bot (`check`, `call`, `raise`, `allin`,
 * `fold`, `show`, `muck`) and `maybe_next_street`, first as functions on
 * the table's `State`, then as methods on a `PokerTable`.
 *
 * Every betting command looks up `t.players[t.turn_idx]` and refuses a
 * user who is not that player. The command then changes the acting seat
 * and the table in place and, for all but `raise`, offers the table to
 * the all-in runout before `maybe_next_street`.
 */
module Commands {
  import opened Wrappers
  import opened Cards
  import opened Table
  import RankAnalysis
  import opened Showdown

  /**
   * What a command answers: one constructor per refusal, `Done` when it
   * acts. `WindowOpen` is the refusal the source lacks (see `TurnReply`).
   */
  datatype Reply = WindowOpen | NoTurn | NotYourTurn | CannotCheck | NotEnoughChips | NoChips | Done

  // ---------------------------------------------------------------------
  // Whose turn it is

  /** There is a seat to act: `turn_idx` is set and names a seat. */
  predicate HasTurn(s: State)
  {
    s.turnIdx.Some? && s.turnIdx.value < |s.seats|
  }

  /**
   * The test every betting command starts with, as written. Before the
   * first hand `turn_idx` is `None` and the lookup fails (the command does
   * nothing); otherwise the author must be the player at `turn_idx`.
   */
  function TurnReplyAsWritten(s: State, author: int): Reply
  {
    if !HasTurn(s) then NoTurn
    else if s.seats[s.turnIdx.value].userId != author then NotYourTurn
    else Done
  }

  /**
   * The test with the gate the source lacks: while a show-or-muck window
   * is open only `show` and `muck` may act, so every betting command is
   * refused. Without it a bet made during the window is lost when the
   * window closes and `begin_hand` empties the pot (`PotLostAsWritten`).
   */
  function TurnReply(s: State, author: int): Reply
  {
    if s.showdownPending then WindowOpen else TurnReplyAsWritten(s, author)
  }

  /** The seat at `turn_idx`. */
  function Actor(s: State): (i: nat)
    requires HasTurn(s)
    ensures i < |s.seats|
  {
    s.turnIdx.value
  }

  /** The acting player is marked as having acted and the turn moves one seat on. */
  function PassTurn(s: State): State
    requires HasTurn(s)
  {
    s.(acted := s.acted + {s.seats[Actor(s)].userId}, turnIdx := Some((Actor(s) + 1) % |s.seats|))
  }

  /** The acting player puts `amount` from their stack into the pot. */
  function Bet(s: State, amount: int): State
    requires HasTurn(s)
  {
    var i := Actor(s);
    s.(seats := s.seats[i := s.seats[i].(stack := s.seats[i].stack - amount, committed := s.seats[i].committed + amount)],
       pot := s.pot + amount)
  }

  /** `to_call`: what the acting player is short of the current bet (negative when over it). */
  function ToCall(s: State): int
    requires HasTurn(s)
  {
    s.currentBet - s.seats[Actor(s)].committed
  }

  /** A bet moves chips from the acting stack to the pot and changes no other seat. */
  lemma BetEffect(s: State, amount: int)
    requires Invariant(s) && HasTurn(s)
    ensures Invariant(Bet(s, amount)) && Chips(Bet(s, amount)) == Chips(s)
    ensures |Bet(s, amount).seats| == |s.seats|
    ensures forall j :: 0 <= j < |s.seats| ==> Bet(s, amount).seats[j].folded == s.seats[j].folded
  {
    var i := Actor(s);
    StacksUpdate(s.seats, i, Bet(s, amount).seats[i]);
  }

  // ---------------------------------------------------------------------
  // maybe_next_street and what follows a bet

  /**
   * `maybe_next_street`: once every bet is matched the street advances,
   * and reaching the showdown pays it out; otherwise nothing changes.
   */
  function MaybeNextStreetState(s: State, deck: seq<Card>): State
    requires Invariant(s) && |s.seats| > 0 && 2 * |s.seats| + 5 <= |deck|
  {
    if !Matched(s) then s
    else
      DeckCoversNextStreet(s);
      NextStreetInvariant(s);
      var n := NextStreetState(s);
      if n.street == Showdown then ShowdownState(n, deck) else n
  }

  /** After a check, a call or an all-in: the runout when it fires, else `maybe_next_street`. */
  function AfterAction(s: State, deck: seq<Card>): State
    requires Invariant(s) && |s.seats| > 0 && 2 * |s.seats| + 5 <= |deck|
  {
    if RunoutFires(s) then RunoutState(s, deck) else MaybeNextStreetState(s, deck)
  }

  /**
   * The street moves only once everyone has matched. From a betting
   * street the next street starts with no bets and the turn on seat 0;
   * from the river the showdown follows and the hand ends idle (or the
   * next hand is dealt); between hands the table stays idle.
   */
  lemma MaybeNextStreetEffect(s: State, deck: seq<Card>)
    requires Invariant(s) && |s.seats| > 0 && 2 * |s.seats| + 5 <= |deck|
    ensures !Matched(s) ==> MaybeNextStreetState(s, deck) == s
    ensures Matched(s) && s.street in {Preflop, Flop, Turn} ==>
              var n := MaybeNextStreetState(s, deck);
              n.street == NextOf(s.street) && |n.board| == BoardSize(n.street)
              && n.board[..|s.board|] == s.board
              && n.acted == {} && n.currentBet == 0 && n.turnIdx == Some(0) && n.pot == s.pot
              && forall j :: 0 <= j < |n.seats| ==> n.seats[j].committed == 0
    ensures Matched(s) && s.street == River ==> MaybeNextStreetState(s, deck).street in {Idle, Preflop}
    ensures s.street == Idle ==> MaybeNextStreetState(s, deck).street == Idle
  {
    if Matched(s) {
      DeckCoversNextStreet(s);
      NextStreetInvariant(s);
      var n := NextStreetState(s);
      if n.street == Showdown {
        ShowdownEnds(n, deck);
      }
    }
  }

  /** Advancing the street keeps who is still in. */
  lemma NextStreetKeepsFolds(s: State)
    requires Drawn(s.street) <= |s.deck|
    ensures |NextStreetState(s).seats| == |s.seats|
    ensures forall j :: 0 <= j < |s.seats| ==>
              NextStreetState(s).seats[j].folded == s.seats[j].folded
              && NextStreetState(s).seats[j].stack == s.seats[j].stack
  {
  }

  /** `maybe_next_street` keeps the table valid, and every chip while someone is still in. */
  lemma MaybeNextStreetKeeps(s: State, deck: seq<Card>)
    requires Invariant(s) && |s.seats| > 0 && 2 * |s.seats| + 5 <= |deck|
    ensures Invariant(MaybeNextStreetState(s, deck)) && |MaybeNextStreetState(s, deck).seats| == |s.seats|
    ensures AnyLive(s.seats) ==> Chips(MaybeNextStreetState(s, deck)) == Chips(s)
  {
    if Matched(s) {
      DeckCoversNextStreet(s);
      NextStreetInvariant(s);
      NextStreetKeepsFolds(s);
      var n := NextStreetState(s);
      if n.street == Showdown {
        ShowdownInvariant(n, deck);
        if AnyLive(s.seats) {
          var j :| 0 <= j < |s.seats| && !s.seats[j].folded;
          assert !n.seats[j].folded;
          ShowdownKeepsChips(n, deck);
        }
      }
    }
  }

  /** What follows a bet keeps the table valid, and every chip while someone is still in. */
  lemma AfterActionKeeps(s: State, deck: seq<Card>)
    requires Invariant(s) && |s.seats| > 0 && 2 * |s.seats| + 5 <= |deck|
    ensures Invariant(AfterAction(s, deck)) && |AfterAction(s, deck).seats| == |s.seats|
    ensures AnyLive(s.seats) ==> Chips(AfterAction(s, deck)) == Chips(s)
  {
    RunoutEffect(s, deck);
    MaybeNextStreetKeeps(s, deck);
  }

  // ---------------------------------------------------------------------
  // The betting commands

  /** `check` is refused off turn, and when the player has put in less than the current bet. */
  function CheckReply(s: State, author: int): Reply
  {
    if TurnReply(s, author) != Done then TurnReply(s, author)
    else if s.seats[Actor(s)].committed < s.currentBet then CannotCheck
    else Done
  }

  /** `check`: the turn passes, then the runout or `maybe_next_street`. */
  function CheckState(s: State, author: int, deck: seq<Card>): State
    requires Invariant(s) && 2 * |s.seats| + 5 <= |deck|
  {
    if CheckReply(s, author) != Done then s else AfterAction(PassTurn(s), deck)
  }

  /** What `call` pays: what is owed, or the whole stack when that is less. */
  function CallPays(s: State): int
    requires HasTurn(s)
  {
    RankAnalysis.Min(ToCall(s), s.seats[Actor(s)].stack)
  }

  /** `call` is refused only off turn. */
  function CallReply(s: State, author: int): Reply
  {
    TurnReply(s, author)
  }

  /** What `call` does once accepted: the payment, the turn passes, then the runout or `maybe_next_street`. */
  function Called(s: State, deck: seq<Card>): State
    requires Invariant(s) && HasTurn(s) && 2 * |s.seats| + 5 <= |deck|
  {
    BetEffect(s, CallPays(s));
    AfterAction(PassTurn(Bet(s, CallPays(s))), deck)
  }

  /** `call` with the window gate. */
  function CallState(s: State, author: int, deck: seq<Card>): State
    requires Invariant(s) && 2 * |s.seats| + 5 <= |deck|
  {
    if CallReply(s, author) != Done then s else Called(s, deck)
  }

  /** `call` as written: only the turn is tested, so it also acts while a window is open. */
  function CallAsWritten(s: State, author: int, deck: seq<Card>): State
    requires Invariant(s) && 2 * |s.seats| + 5 <= |deck|
  {
    if TurnReplyAsWritten(s, author) != Done then s else Called(s, deck)
  }

  /** `raise` is refused off turn, and when the call plus the raise is more than the stack. */
  function RaiseReply(s: State, author: int, amount: int): Reply
  {
    if TurnReply(s, author) != Done then TurnReply(s, author)
    else if ToCall(s) + amount > s.seats[Actor(s)].stack then NotEnoughChips
    else Done
  }

  /** The table once the raise is in: the call plus the raise paid, the current bet up by the raise. */
  function Raised(s: State, amount: int): State
    requires HasTurn(s)
  {
    Bet(s, ToCall(s) + amount).(currentBet := s.currentBet + amount)
  }

  /** `raise`: the turn passes, then `maybe_next_street` (there is no runout check here). */
  function RaiseState(s: State, author: int, amount: int, deck: seq<Card>): State
    requires Invariant(s) && 2 * |s.seats| + 5 <= |deck|
  {
    if RaiseReply(s, author, amount) != Done then s
    else
      BetEffect(s, ToCall(s) + amount);
      MaybeNextStreetState(PassTurn(Raised(s, amount)), deck)
  }

  /**
   * `max([q.committed for q in t.players if not q.folded] + [t.current_bet])`
   * over the first `k` seats.
   */
  function TopCommitted(seats: seq<Seat>, k: nat, bet: int): int
    requires k <= |seats|
  {
    if k == 0 then bet
    else
      var m := TopCommitted(seats, k - 1, bet);
      if !seats[k - 1].folded && seats[k - 1].committed > m then seats[k - 1].committed else m
  }

  /** It is the largest of the bet and the live commitments, and is one of them. */
  lemma {:induction false} TopCommittedIsMaximum(seats: seq<Seat>, k: nat, bet: int)
    requires k <= |seats|
    ensures TopCommitted(seats, k, bet) >= bet
    ensures forall j :: 0 <= j < k && !seats[j].folded ==> seats[j].committed <= TopCommitted(seats, k, bet)
    ensures TopCommitted(seats, k, bet) == bet
            || exists j :: 0 <= j < k && !seats[j].folded && seats[j].committed == TopCommitted(seats, k, bet)
  {
    if k > 0 {
      TopCommittedIsMaximum(seats, k - 1, bet);
    }
  }

  /** `allin` is refused off turn, and when the player has no chips. */
  function AllInReply(s: State, author: int): Reply
  {
    if TurnReply(s, author) != Done then TurnReply(s, author)
    else if s.seats[Actor(s)].stack <= 0 then NoChips
    else Done
  }

  /** The table once the whole stack is in and the current bet is the largest live commitment. */
  function WentAllIn(s: State): State
    requires HasTurn(s)
  {
    var b := Bet(s, s.seats[Actor(s)].stack);
    b.(currentBet := TopCommitted(b.seats, |b.seats|, s.currentBet))
  }

  /** `allin`: the turn passes, then the runout or `maybe_next_street`. */
  function AllInState(s: State, author: int, deck: seq<Card>): State
    requires Invariant(s) && 2 * |s.seats| + 5 <= |deck|
  {
    if AllInReply(s, author) != Done then s
    else
      BetEffect(s, s.seats[Actor(s)].stack);
      AfterAction(PassTurn(WentAllIn(s)), deck)
  }

  /** The seats among the first `k` that have not folded, in seat order. */
  function Alive(seats: seq<Seat>, k: nat): (r: seq<nat>)
    requires k <= |seats|
    ensures |r| <= k && forall a :: 0 <= a < |r| ==> r[a] < k
  {
    if k == 0 then []
    else Alive(seats, k - 1) + (if seats[k - 1].folded then [] else [k - 1])
  }

  /** The seats in `Alive` are exactly those not folded, in increasing order. */
  lemma {:induction false} AliveMembers(seats: seq<Seat>, k: nat)
    requires k <= |seats|
    ensures forall x: nat :: x in Alive(seats, k) <==> x < k && !seats[x].folded
    ensures forall a, b :: 0 <= a < b < |Alive(seats, k)| ==> Alive(seats, k)[a] < Alive(seats, k)[b]
  {
    if k > 0 {
      AliveMembers(seats, k - 1);
    }
  }

  /** The acting player folds, and is marked as having acted. */
  function Folded(s: State): State
    requires HasTurn(s)
  {
    var i := Actor(s);
    s.(seats := s.seats[i := s.seats[i].(folded := true)], acted := s.acted + {s.seats[i].userId})
  }

  /**
   * The last player in after a fold: their stack takes the pot, the hand
   * is over, and the winner alone may show.
   */
  function FoldWin(s: State, w: nat): State
    requires w < |s.seats|
  {
    s.(seats := s.seats[w := s.seats[w].(stack := s.seats[w].stack + s.pot)], pot := 0, street := Idle,
       showdownPending := true, pendingType := Some(FoldWindow), pendingShow := map[s.seats[w].userId := None])
  }

  /** `fold` is refused only off turn. */
  function FoldReply(s: State, author: int): Reply
  {
    TurnReply(s, author)
  }

  /**
   * What follows the fold of seat `i`: with one player left in, that
   * player wins the pot; otherwise the turn moves one seat on and
   * `maybe_next_street` follows.
   */
  function AfterFold(f: State, i: nat, deck: seq<Card>): State
    requires Invariant(f) && i < |f.seats| && 2 * |f.seats| + 5 <= |deck|
  {
    var alive := Alive(f.seats, |f.seats|);
    if |alive| == 1 then FoldWin(f, alive[0])
    else MaybeNextStreetState(f.(turnIdx := Some((i + 1) % |f.seats|)), deck)
  }

  /** `fold`: the acting player folds, then `AfterFold`. */
  function FoldState(s: State, author: int, deck: seq<Card>): State
    requires Invariant(s) && 2 * |s.seats| + 5 <= |deck|
  {
    if FoldReply(s, author) != Done then s
    else
      FoldedEffect(s);
      AfterFold(Folded(s), Actor(s), deck)
  }

  /**
   * `show` and `muck`: outside a window, or from a user the window does
   * not wait for, nothing happens; otherwise the decision is recorded and
   * the hand finishes once every entry is decided.
   */
  function ShowOrMuckState(s: State, author: int, action: Decision, deck: seq<Card>): State
    requires 2 * |s.seats| + 5 <= |deck|
  {
    if !s.showdownPending || author !in s.pendingShow then s
    else
      var r := ResolveState(s, author, action);
      if AllDecided(r.pendingShow) then FinishState(r, deck) else r
  }

  // ---------------------------------------------------------------------
  // What the commands promise

  /**
   * `call` pays what is owed, or the whole stack when that is less: after
   * it the player has matched the bet or is all-in, the chips moved from
   * the stack to the pot, and a stack never goes below zero.
   */
  lemma CallEffect(s: State)
    requires Invariant(s) && HasTurn(s)
    ensures var i := Actor(s); var b := Bet(s, CallPays(s));
            CallPays(s) <= ToCall(s) && CallPays(s) <= s.seats[i].stack
            && (CallPays(s) == ToCall(s) || CallPays(s) == s.seats[i].stack)
            && b.seats[i].stack == s.seats[i].stack - CallPays(s)
            && b.pot == s.pot + CallPays(s)
            && (b.seats[i].committed == s.currentBet || b.seats[i].stack == 0)
            && (s.seats[i].stack >= 0 ==> b.seats[i].stack >= 0)
            && Chips(b) == Chips(s)
  {
    BetEffect(s, CallPays(s));
  }

  /**
   * A raise that goes through leaves the raiser exactly at the new
   * current bet, which is the old one plus the raise, with a stack that
   * is not negative; the chips only moved to the pot.
   */
  lemma RaiseEffect(s: State, amount: int)
    requires Invariant(s) && HasTurn(s) && ToCall(s) + amount <= s.seats[Actor(s)].stack
    ensures var i := Actor(s); var r := Raised(s, amount);
            r.currentBet == s.currentBet + amount
            && r.seats[i].committed == r.currentBet
            && r.seats[i].stack >= 0
            && r.pot == s.pot + ToCall(s) + amount
            && Chips(r) == Chips(s)
  {
    BetEffect(s, ToCall(s) + amount);
  }

  /**
   * After `allin` the stack is empty, all of it is in the pot, and the
   * current bet is the largest of the old bet and every live commitment.
   */
  lemma AllInEffect(s: State)
    requires Invariant(s) && HasTurn(s)
    ensures var i := Actor(s); var a := WentAllIn(s);
            a.seats[i].stack == 0
            && a.pot == s.pot + s.seats[i].stack
            && a.currentBet >= s.currentBet
            && (forall j :: 0 <= j < |a.seats| && !a.seats[j].folded ==> a.seats[j].committed <= a.currentBet)
            && (a.currentBet == s.currentBet
                || exists j :: 0 <= j < |a.seats| && !a.seats[j].folded && a.seats[j].committed == a.currentBet)
            && Chips(a) == Chips(s)
  {
    var b := Bet(s, s.seats[Actor(s)].stack);
    BetEffect(s, s.seats[Actor(s)].stack);
    TopCommittedIsMaximum(b.seats, |b.seats|, s.currentBet);
  }

  /** A fold keeps the seats, the ids and the table valid, and marks the folder. */
  lemma FoldedEffect(s: State)
    requires Invariant(s) && HasTurn(s)
    ensures Invariant(Folded(s)) && Chips(Folded(s)) == Chips(s) && |Folded(s).seats| == |s.seats|
    ensures Folded(s).seats[Actor(s)].folded
    ensures forall j :: 0 <= j < |s.seats| && j != Actor(s) ==> Folded(s).seats[j] == s.seats[j]
  {
    StacksUpdate(s.seats, Actor(s), Folded(s).seats[Actor(s)]);
  }

  /**
   * When a fold leaves one player in, that player is the only seat not
   * folded and takes the whole pot; the pot is empty, the hand is over,
   * and the window waits for the winner alone. No chip is lost.
   */
  lemma FoldWinEffect(s: State, author: int, deck: seq<Card>)
    requires Invariant(s) && 2 * |s.seats| + 5 <= |deck|
    requires FoldReply(s, author) == Done && |Alive(Folded(s).seats, |s.seats|)| == 1
    ensures var f := Folded(s); var w := Alive(f.seats, |s.seats|)[0]; var r := FoldState(s, author, deck);
            w < |s.seats| && !f.seats[w].folded
            && (forall j :: 0 <= j < |s.seats| && !f.seats[j].folded ==> j == w)
            && r.seats[w].stack == s.seats[w].stack + s.pot
            && r.pot == 0 && r.street == Idle
            && r.showdownPending && r.pendingType == Some(FoldWindow) && r.pendingShow == map[s.seats[w].userId := None]
            && Chips(r) == Chips(s)
  {
    var f := Folded(s);
    FoldedEffect(s);
    AliveMembers(f.seats, |f.seats|);
    var w := Alive(f.seats, |s.seats|)[0];
    assert w in Alive(f.seats, |s.seats|);
    forall j | 0 <= j < |s.seats| && !f.seats[j].folded
      ensures j == w
    {
      assert j in Alive(f.seats, |s.seats|);
    }
    StacksUpdate(f.seats, w, FoldWin(f, w).seats[w]);
  }

  /** `check` keeps the table valid, and every chip while someone is still in. */
  lemma CheckKeeps(s: State, author: int, deck: seq<Card>)
    requires Invariant(s) && 2 * |s.seats| + 5 <= |deck|
    ensures Invariant(CheckState(s, author, deck)) && |CheckState(s, author, deck).seats| == |s.seats|
    ensures AnyLive(s.seats) ==> Chips(CheckState(s, author, deck)) == Chips(s)
  {
    if CheckReply(s, author) == Done {
      AfterActionKeeps(PassTurn(s), deck);
    }
  }

  /** `call` keeps the table valid, and every chip while someone is still in. */
  lemma CallKeeps(s: State, author: int, deck: seq<Card>)
    requires Invariant(s) && 2 * |s.seats| + 5 <= |deck|
    ensures Invariant(CallState(s, author, deck)) && |CallState(s, author, deck).seats| == |s.seats|
    ensures AnyLive(s.seats) ==> Chips(CallState(s, author, deck)) == Chips(s)
  {
    if CallReply(s, author) == Done {
      var c := Bet(s, CallPays(s));
      BetEffect(s, CallPays(s));
      AnyLiveAlike(s.seats, c.seats);
      AfterActionKeeps(PassTurn(c), deck);
    }
  }

  /** `raise` keeps the table valid, and every chip while someone is still in. */
  lemma RaiseKeeps(s: State, author: int, amount: int, deck: seq<Card>)
    requires Invariant(s) && 2 * |s.seats| + 5 <= |deck|
    ensures Invariant(RaiseState(s, author, amount, deck)) && |RaiseState(s, author, amount, deck).seats| == |s.seats|
    ensures AnyLive(s.seats) ==> Chips(RaiseState(s, author, amount, deck)) == Chips(s)
  {
    if RaiseReply(s, author, amount) == Done {
      var g := RaiseStep(s, amount);
      AnyLiveAlike(s.seats, g.seats);
      MaybeNextStreetKeeps(g, deck);
    }
  }

  /** The table a raise hands to `maybe_next_street`. */
  lemma RaiseStep(s: State, amount: int) returns (g: State)
    requires Invariant(s) && HasTurn(s)
    ensures g == PassTurn(Raised(s, amount))
    ensures Invariant(g) && Chips(g) == Chips(s) && |g.seats| == |s.seats|
    ensures forall j :: 0 <= j < |s.seats| ==> g.seats[j].folded == s.seats[j].folded
  {
    BetEffect(s, ToCall(s) + amount);
    g := PassTurn(Raised(s, amount));
  }

  /** A raise that goes through is `maybe_next_street` after `Raised` and the turn passing. */
  lemma RaiseDone(s: State, author: int, amount: int, deck: seq<Card>)
    requires Invariant(s) && 2 * |s.seats| + 5 <= |deck| && RaiseReply(s, author, amount) == Done
    ensures HasTurn(s) && Invariant(PassTurn(Raised(s, amount))) && |PassTurn(Raised(s, amount)).seats| == |s.seats|
    ensures RaiseState(s, author, amount, deck) == MaybeNextStreetState(PassTurn(Raised(s, amount)), deck)
  {
    var g := RaiseStep(s, amount);
  }

  /** `allin` keeps the table valid, and every chip while someone is still in. */
  lemma AllInKeeps(s: State, author: int, deck: seq<Card>)
    requires Invariant(s) && 2 * |s.seats| + 5 <= |deck|
    ensures Invariant(AllInState(s, author, deck)) && |AllInState(s, author, deck).seats| == |s.seats|
    ensures AnyLive(s.seats) ==> Chips(AllInState(s, author, deck)) == Chips(s)
  {
    if AllInReply(s, author) == Done {
      var a := WentAllIn(s);
      BetEffect(s, s.seats[Actor(s)].stack);
      AllInEffect(s);
      AnyLiveAlike(s.seats, a.seats);
      AfterActionKeeps(PassTurn(a), deck);
    }
  }

  /** Seats with the same folds have someone still in alike. */
  lemma AnyLiveAlike(a: seq<Seat>, b: seq<Seat>)
    requires |a| == |b| && forall j :: 0 <= j < |a| ==> a[j].folded == b[j].folded
    ensures AnyLive(a) <==> AnyLive(b)
  {
    if AnyLive(a) {
      var j :| 0 <= j < |a| && !a[j].folded;
      assert !b[j].folded;
    }
    if AnyLive(b) {
      var j :| 0 <= j < |b| && !b[j].folded;
      assert !a[j].folded;
    }
  }

  /** A fold keeps the table valid, and every chip while someone is left in. */
  lemma FoldKeeps(s: State, author: int, deck: seq<Card>)
    requires Invariant(s) && 2 * |s.seats| + 5 <= |deck| && HasTurn(s)
    ensures Invariant(FoldState(s, author, deck)) && |FoldState(s, author, deck).seats| == |s.seats|
    ensures AnyLive(Folded(s).seats) ==> Chips(FoldState(s, author, deck)) == Chips(s)
  {
    if FoldReply(s, author) == Done {
      FoldedEffect(s);
      AfterFoldKeeps(Folded(s), Actor(s), deck);
    }
  }

  /** What follows a fold keeps the table valid, and every chip while someone is left in. */
  lemma AfterFoldKeeps(f: State, i: nat, deck: seq<Card>)
    requires Invariant(f) && i < |f.seats| && 2 * |f.seats| + 5 <= |deck|
    ensures Invariant(AfterFold(f, i, deck)) && |AfterFold(f, i, deck).seats| == |f.seats|
    ensures AnyLive(f.seats) ==> Chips(AfterFold(f, i, deck)) == Chips(f)
  {
    var alive := Alive(f.seats, |f.seats|);
    if |alive| == 1 {
      FoldWinKeeps(f, alive[0]);
      StacksUpdate(f.seats, alive[0], FoldWin(f, alive[0]).seats[alive[0]]);
    } else {
      var g := f.(turnIdx := Some((i + 1) % |f.seats|));
      MaybeNextStreetKeeps(g, deck);
    }
  }

  /** Handing the pot to the last player in keeps the table valid. */
  lemma FoldWinKeeps(f: State, w: nat)
    requires Invariant(f) && w < |f.seats|
    ensures Invariant(FoldWin(f, w)) && |FoldWin(f, w).seats| == |f.seats|
  {
  }

  /**
   * `show` and `muck` keep the table valid; outside a window, or from a
   * user the window does not wait for, they change nothing; otherwise
   * they record that user's decision and no other entry, and the hand
   * finishes (the window closes) once every entry is decided.
   */
  lemma ShowOrMuckEffect(s: State, author: int, action: Decision, deck: seq<Card>)
    requires Invariant(s) && 2 * |s.seats| + 5 <= |deck|
    ensures Invariant(ShowOrMuckState(s, author, action, deck))
    ensures !s.showdownPending || author !in s.pendingShow ==> ShowOrMuckState(s, author, action, deck) == s
    ensures s.showdownPending && author in s.pendingShow && !AllDecided(s.pendingShow[author := Some(action)]) ==>
              ShowOrMuckState(s, author, action, deck).pendingShow.Keys == s.pendingShow.Keys
              && ShowOrMuckState(s, author, action, deck).pendingShow[author] == Some(action)
              && (forall u :: u in s.pendingShow && u != author ==>
                    ShowOrMuckState(s, author, action, deck).pendingShow[u] == s.pendingShow[u])
              && ShowOrMuckState(s, author, action, deck).seats == s.seats
    ensures s.showdownPending && author in s.pendingShow && AllDecided(s.pendingShow[author := Some(action)]) ==>
              !ShowOrMuckState(s, author, action, deck).showdownPending
              && ShowOrMuckState(s, author, action, deck).pendingShow == map[]
  {
    if s.showdownPending && author in s.pendingShow {
      FinishEffect(ResolveState(s, author, action), deck);
    }
  }

  /**
   * A refused command leaves the table as it was. Every betting command
   * is refused while a show-or-muck window is open, when there is no turn,
   * or when the author is not the player at `turn_idx`; past that test `check` is refused exactly when the player
   * has put in less than the current bet, `raise` exactly when the call
   * plus the raise is more than the stack, `allin` exactly when the stack
   * is empty, and `call` and `fold` never.
   */
  lemma Refusals(s: State, author: int, amount: int, deck: seq<Card>)
    requires Invariant(s) && 2 * |s.seats| + 5 <= |deck|
    ensures s.showdownPending ==> TurnReply(s, author) == WindowOpen
    ensures TurnReply(s, author) == Done <==> !s.showdownPending && HasTurn(s) && s.seats[Actor(s)].userId == author
    ensures CheckReply(s, author) != Done ==> CheckState(s, author, deck) == s
    ensures CallReply(s, author) != Done ==> CallState(s, author, deck) == s
    ensures RaiseReply(s, author, amount) != Done ==> RaiseState(s, author, amount, deck) == s
    ensures AllInReply(s, author) != Done ==> AllInState(s, author, deck) == s
    ensures FoldReply(s, author) != Done ==> FoldState(s, author, deck) == s
    ensures TurnReply(s, author) == Done ==>
              (CheckReply(s, author) == CannotCheck <==> s.seats[Actor(s)].committed < s.currentBet)
              && (RaiseReply(s, author, amount) == NotEnoughChips <==> ToCall(s) + amount > s.seats[Actor(s)].stack)
              && (AllInReply(s, author) == NoChips <==> s.seats[Actor(s)].stack <= 0)
              && CallReply(s, author) == Done && FoldReply(s, author) == Done
    ensures TurnReply(s, author) != Done ==>
              CheckReply(s, author) == CallReply(s, author) == RaiseReply(s, author, amount)
              == AllInReply(s, author) == FoldReply(s, author) == TurnReply(s, author)
  {
  }

  // ---------------------------------------------------------------------
  // Betting while a window is open

  /**
   * While a show-or-muck window is open every betting command is refused
   * and changes nothing, so the chips stay where the window found them:
   * with an empty pot, `show`, `muck` and the automatic muck keep every
   * chip, including when they close the window and the next hand begins.
   */
  lemma WindowKeepsChips(s: State, author: int, amount: int, action: Decision, deck: seq<Card>)
    requires Invariant(s) && s.showdownPending && 2 * |s.seats| + 5 <= |deck|
    ensures CheckReply(s, author) == CallReply(s, author) == RaiseReply(s, author, amount)
            == AllInReply(s, author) == FoldReply(s, author) == WindowOpen
    ensures CheckState(s, author, deck) == s && CallState(s, author, deck) == s
            && RaiseState(s, author, amount, deck) == s && AllInState(s, author, deck) == s
            && FoldState(s, author, deck) == s
    ensures s.pot == 0 ==> Chips(ShowOrMuckState(s, author, action, deck)) == Chips(s)
    ensures s.pot == 0 ==> Chips(AutoMuckState(s, author, deck)) == Chips(s)
  {
    Refusals(s, author, amount, deck);
    DecisionKeepsChips(s, author, action, deck);
    AutoMuckKeepsChips(s, author, deck);
  }

  /** Closing a window with an empty pot keeps every chip, whether or not the next hand begins. */
  lemma FinishKeepsChips(s: State, deck: seq<Card>)
    requires Invariant(s) && 2 * |s.seats| + 5 <= |deck| && s.pot == 0
    ensures Chips(FinishState(s, deck)) == Chips(s)
  {
    FinishEffect(s, deck);
  }

  /** `show` or `muck` with an empty pot keeps every chip. */
  lemma DecisionKeepsChips(s: State, author: int, action: Decision, deck: seq<Card>)
    requires Invariant(s) && 2 * |s.seats| + 5 <= |deck|
    ensures s.pot == 0 ==> Chips(ShowOrMuckState(s, author, action, deck)) == Chips(s)
  {
    if s.pot == 0 && s.showdownPending && author in s.pendingShow {
      FinishKeepsChips(ResolveState(s, author, action), deck);
    }
  }

  /** The automatic muck with an empty pot keeps every chip. */
  lemma AutoMuckKeepsChips(s: State, author: int, deck: seq<Card>)
    requires Invariant(s) && 2 * |s.seats| + 5 <= |deck|
    ensures s.pot == 0 ==> Chips(AutoMuckState(s, author, deck)) == Chips(s)
  {
    if s.pot == 0 && AutoMuckFires(s, author) {
      FinishKeepsChips(s.(pendingShow := s.pendingShow[author := Some(Muck)]), deck);
    }
  }

  /** Two players seated and bought in for 100 each, before the first hand. */
  function FreshHeadsUp(): State
  {
    State(Rules(5, 10, 100, 1000), [Seat(1, "a", 100, [], false, 0), Seat(2, "b", 100, [], false, 0)],
          [], 0, 0, None, [], Idle, {}, 0, 0, false, None, map[])
  }

  /**
   * The first hand on that table: seat 1 (user 2) posted the small blind
   * of 5 and acts first, seat 0 (user 1) posted the big blind of 10.
   */
  lemma FirstHand(deck: seq<Card>)
    requires 9 <= |deck|
    ensures var s0 := BeginHandState(FreshHeadsUp(), deck);
            Invariant(s0) && Chips(s0) == 200 && |s0.seats| == 2
            && s0.seats[0].userId == 1 && s0.seats[0].stack == 90 && !s0.seats[0].folded
            && s0.seats[1].userId == 2 && s0.seats[1].stack == 95 && s0.seats[1].committed == 5
            && s0.pot == 15 && s0.currentBet == 10 && s0.turnIdx == Some(1)
            && s0.acted == {} && !s0.showdownPending
  {
    BeginHandInvariant(FreshHeadsUp(), deck);
    BlindsConserveChips(FreshHeadsUp(), deck);
    BlindsPosted(FreshHeadsUp(), deck);
  }

  /**
   * The small blind folds at once: user 1 wins the pot of 15 and the fold
   * window waits for user 1, but the turn stays on the folded seat 1.
   */
  lemma SmallBlindFolds(deck: seq<Card>) returns (s1: State)
    requires 9 <= |deck|
    ensures Invariant(BeginHandState(FreshHeadsUp(), deck)) && |BeginHandState(FreshHeadsUp(), deck).seats| == 2
    ensures s1 == FoldState(BeginHandState(FreshHeadsUp(), deck), 2, deck)
    ensures Invariant(s1) && Chips(s1) == 200 && |s1.seats| == 2
            && s1.seats[0].userId == 1 && s1.seats[0].stack == 105 && !s1.seats[0].folded
            && s1.seats[1].userId == 2 && s1.seats[1].stack == 95 && s1.seats[1].committed == 5
            && s1.pot == 0 && s1.currentBet == 10 && s1.turnIdx == Some(1) && s1.street == Idle
            && s1.acted == {2} && s1.showdownPending && s1.pendingShow == map[1 := None]
  {
    FirstHand(deck);
    var s0 := BeginHandState(FreshHeadsUp(), deck);
    FoldedEffect(s0);
    var f := Folded(s0);
    assert Alive(f.seats, 2) == [0];
    FoldWinEffect(s0, 2, deck);
    s1 := FoldState(s0, 2, deck);
  }

  /**
   * As written, the folded small blind may still `call` during the
   * window: 5 chips go to the pot. When user 1 mucks, the window closes,
   * the next hand begins, and `begin_hand` empties the pot: the table
   * holds 195 of its 200 chips.
   */
  lemma PotLostAsWritten(deck: seq<Card>)
    requires 9 <= |deck|
    ensures Invariant(BeginHandState(FreshHeadsUp(), deck)) && |BeginHandState(FreshHeadsUp(), deck).seats| == 2
    ensures var s1 := FoldState(BeginHandState(FreshHeadsUp(), deck), 2, deck);
            Invariant(s1) && |s1.seats| == 2 && Chips(s1) == 200 && s1.showdownPending
            && var s2 := CallAsWritten(s1, 2, deck);
            Invariant(s2) && |s2.seats| == 2 && s2.pot == 5 && Chips(s2) == 200 && s2.showdownPending
            && Chips(ShowOrMuckState(s2, 1, Muck, deck)) == 195
            && ShowOrMuckState(s2, 1, Muck, deck).street == Preflop
  {
    var s1 := SmallBlindFolds(deck);
    var s2 := CalledInWindow(s1, deck);
    MuckStartsNextHand(s2, deck);
  }

  /** With the gate, that call is refused and the muck keeps all 200 chips. */
  lemma GateKeepsPot(deck: seq<Card>)
    requires 9 <= |deck|
    ensures Invariant(BeginHandState(FreshHeadsUp(), deck)) && |BeginHandState(FreshHeadsUp(), deck).seats| == 2
    ensures var s1 := FoldState(BeginHandState(FreshHeadsUp(), deck), 2, deck);
            Invariant(s1) && |s1.seats| == 2 && CallReply(s1, 2) == WindowOpen && CallState(s1, 2, deck) == s1
            && Chips(ShowOrMuckState(s1, 1, Muck, deck)) == 200
  {
    var s1 := SmallBlindFolds(deck);
    Refusals(s1, 2, 0, deck);
    DecisionKeepsChips(s1, 1, Muck, deck);
  }

  /** User 1's muck closes the window and begins the next hand without the pot. */
  lemma MuckStartsNextHand(s2: State, deck: seq<Card>)
    requires Invariant(s2) && 2 * |s2.seats| + 5 <= |deck|
    requires s2.showdownPending && s2.pendingShow == map[1 := None] && Funded(s2.seats) == 2
    ensures Chips(ShowOrMuckState(s2, 1, Muck, deck)) == Stacks(s2.seats)
    ensures ShowOrMuckState(s2, 1, Muck, deck).street == Preflop
  {
    var r := ResolveState(s2, 1, Muck);
    assert AllDecided(r.pendingShow);
    FinishEffect(r, deck);
  }

  /** The call in that window pays 5, and as nobody has matched since, nothing else follows. */
  lemma CalledInWindow(s1: State, deck: seq<Card>) returns (s2: State)
    requires Invariant(s1) && 2 * |s1.seats| + 5 <= |deck| && |s1.seats| == 2
    requires s1.seats[0].userId == 1 && s1.seats[0].stack == 105 && !s1.seats[0].folded
    requires s1.seats[1].userId == 2 && s1.seats[1].stack == 95 && s1.seats[1].committed == 5
    requires s1.pot == 0 && s1.currentBet == 10 && s1.turnIdx == Some(1) && s1.street == Idle
    requires s1.acted == {2} && s1.showdownPending && s1.pendingShow == map[1 := None]
    ensures s2 == CallAsWritten(s1, 2, deck)
    ensures Invariant(s2) && |s2.seats| == 2 && s2.pot == 5 && Chips(s2) == 200 && s2.showdownPending
    ensures s2.pendingShow == map[1 := None] && Funded(s2.seats) == 2 && Stacks(s2.seats) == 195
  {
    var b := Bet(s1, 5);
    assert CallPays(s1) == 5;
    BetEffect(s1, 5);
    var p := PassTurn(b);
    assert !Matched(p) by {
      assert !p.seats[0].folded && p.seats[0].stack != 0 && p.seats[0].userId !in p.acted;
    }
    s2 := CallAsWritten(s1, 2, deck);
    assert s2 == p;
    TwoSeats(s1.seats);
    TwoSeats(s2.seats);
  }

  /** The chips and the funded count of a two-seat table. */
  lemma TwoSeats(seats: seq<Seat>)
    requires |seats| == 2
    ensures Stacks(seats) == seats[0].stack + seats[1].stack
    ensures Funded(seats) == (if seats[0].stack > 0 then 1 else 0) + (if seats[1].stack > 0 then 1 else 0)
  {
    assert Stacks(seats[1..][1..]) == 0 && Funded(seats[1..][1..]) == 0 by {
      assert seats[1..][1..] == [];
    }
  }

  // ---------------------------------------------------------------------
  // A check between hands

  /**
   * A heads-up table after a showdown that the player at seat 1 lost
   * with everything, once that player's window has closed: the hand is
   * over (idle), nobody has folded, seat 1 has no chips, so no next hand
   * was dealt, and the commitments, the current bet and the acted set
   * are as `next_street` cleared them on the way to the showdown, with
   * the turn still on seat 0. The dealer button sits on seat 1, where
   * the hand's `begin_hand` moved it, and the deck holds the 43 cards
   * nobody was dealt.
   */
  function BustedHeadsUp(): State
  {
    var board := [Card(0, 0), Card(5, 1), Card(7, 2), Card(9, 3), Card(11, 0)];
    var deck := [
       Card(0, 1), Card(0, 2), Card(0, 3), Card(1, 0), Card(1, 1), Card(1, 3), Card(2, 0), Card(2, 1),
       Card(2, 2), Card(3, 0), Card(3, 1), Card(3, 2), Card(3, 3), Card(4, 0), Card(4, 1), Card(4, 2),
       Card(4, 3), Card(5, 0), Card(5, 2), Card(5, 3), Card(6, 0), Card(6, 1), Card(6, 2), Card(6, 3),
       Card(7, 0), Card(7, 1), Card(7, 3), Card(8, 0), Card(8, 1), Card(8, 2), Card(8, 3), Card(9, 0),
       Card(9, 1), Card(9, 2), Card(10, 0), Card(10, 1), Card(10, 2), Card(10, 3), Card(11, 1), Card(11, 2),
       Card(11, 3), Card(12, 2), Card(12, 3)];
    State(Rules(5, 10, 100, 1000),
          [Seat(1, "winner", 400, [Card(12, 0), Card(12, 1)], false, 0),
           Seat(2, "loser", 0, [Card(1, 2), Card(2, 3)], false, 0)],
          deck, 0, 0, Some(0), board, Idle, {}, 1, 1, false, None, map[])
  }

  /**
   * On that table the winner may still `check`. After it, the runout's
   * test as written passes (someone still in has no chips, and the only
   * player with chips has acted and matched), the street is idle, and the
   * loop `while t.street != "showdown": t.next_street()` never ends: it
   * is still looping after any number of passes. With the street check
   * the runout does not fire and the check only passes the turn.
   */
  lemma BustedSurvivorCheckNeverEnds(fuel: nat)
    ensures Invariant(BustedHeadsUp()) && BustedHeadsUp().street == Idle
    ensures CheckReply(BustedHeadsUp(), 1) == Done
    ensures RunoutGuard(PassTurn(BustedHeadsUp())) && PassTurn(BustedHeadsUp()).street == Idle
    ensures RunOutAsWritten(PassTurn(BustedHeadsUp()), fuel) == None
    ensures !RunoutFires(PassTurn(BustedHeadsUp()))
  {
    var c := PassTurn(BustedHeadsUp());
    assert !c.seats[1].folded && c.seats[1].stack == 0;
    RunOutAsWrittenNeverStopsWhenIdle(c, fuel);
  }

  // ---------------------------------------------------------------------
  // On the table

  /** The window gate, then the turn test on the table: the player at `turn_idx` must be the author. */
  method TurnOf(t: PokerTable, author: int) returns (reply: Reply)
    requires t.Valid()
    ensures reply == TurnReply(t.Snapshot(), author)
  {
    if t.showdownPending {
      return WindowOpen;
    }
    if t.turnIdx.None? {
      return NoTurn;
    }
    if t.players[t.turnIdx.value].userId != author {
      return NotYourTurn;
    }
    return Done;
  }

  /** Marks the acting player as having acted and moves the turn to the next seat, wrapping round. */
  method PassTurnOnTable(t: PokerTable)
    requires t.Valid() && HasTurn(t.Snapshot())
    modifies t`acted, t`turnIdx
    ensures t.Valid() && t.players == old(t.players) && t.Snapshot() == PassTurn(old(t.Snapshot()))
  {
    var i := t.turnIdx.value;
    t.acted := t.acted + {t.players[i].userId};
    t.turnIdx := Some((i + 1) % |t.players|);
  }

  /** Moves `amount` chips from the acting player's stack into their commitment and the pot. */
  method BetOnTable(t: PokerTable, amount: int)
    requires t.Valid() && HasTurn(t.Snapshot())
    modifies t`pot, t.players
    ensures t.Valid() && t.players == old(t.players) && t.Snapshot() == Bet(old(t.Snapshot()), amount)
  {
    ghost var s0 := t.Snapshot();
    t.DistinctPlayers();
    var i := t.turnIdx.value;
    var p := t.players[i];
    p.stack := p.stack - amount;
    p.committed := p.committed + amount;
    t.pot := t.pot + amount;
    assert t.Seats() == Bet(s0, amount).seats;
    BetEffect(s0, amount);
  }

  /** Sets the bet every player still in must match. */
  method SetCurrentBet(t: PokerTable, bet: int)
    requires t.Valid()
    modifies t`currentBet
    ensures t.Valid() && t.players == old(t.players) && t.Snapshot() == old(t.Snapshot()).(currentBet := bet)
  {
    t.currentBet := bet;
  }

  /** `maybe_next_street` on the table. */
  method MaybeNextStreet(t: PokerTable, nextDeck: seq<Card>)
    requires t.Valid() && |t.players| > 0 && 2 * |t.players| + 5 <= |nextDeck|
    modifies t, t.players
    ensures t.Valid() && t.players == old(t.players)
    ensures t.Snapshot() == MaybeNextStreetState(old(t.Snapshot()), nextDeck)
  {
    var matched := t.EveryoneMatched();
    if matched {
      t.NextStreet();
      if t.street == Showdown {
        BeginShowdown(t, nextDeck);
      }
    }
  }

  /** The all-in runout when it fires, otherwise `maybe_next_street`. */
  method AfterActionOnTable(t: PokerTable, nextDeck: seq<Card>)
    requires t.Valid() && |t.players| > 0 && 2 * |t.players| + 5 <= |nextDeck|
    modifies t, t.players
    ensures t.Valid() && t.players == old(t.players)
    ensures t.Snapshot() == AfterAction(old(t.Snapshot()), nextDeck)
  {
    var ran := HandleAllinRunout(t, nextDeck);
    if !ran {
      MaybeNextStreet(t, nextDeck);
    }
  }

  /** The `check` command: refused off turn or when short of the bet, otherwise the turn passes and the hand moves on. */
  method Check(t: PokerTable, author: int, nextDeck: seq<Card>) returns (reply: Reply)
    requires t.Valid() && 2 * |t.players| + 5 <= |nextDeck|
    modifies t, t.players
    ensures t.Valid() && t.players == old(t.players)
    ensures reply == CheckReply(old(t.Snapshot()), author)
    ensures t.Snapshot() == CheckState(old(t.Snapshot()), author, nextDeck)
  {
    reply := TurnOf(t, author);
    if reply != Done {
      return;
    }
    if t.players[t.turnIdx.value].committed < t.currentBet {
      return CannotCheck;
    }
    PassTurnOnTable(t);
    AfterActionOnTable(t, nextDeck);
  }

  /** The `call` command: refused off turn, otherwise the player pays what is owed (or all it has) and the hand moves on. */
  method Call(t: PokerTable, author: int, nextDeck: seq<Card>) returns (reply: Reply)
    requires t.Valid() && 2 * |t.players| + 5 <= |nextDeck|
    modifies t, t.players
    ensures t.Valid() && t.players == old(t.players)
    ensures reply == CallReply(old(t.Snapshot()), author)
    ensures t.Snapshot() == CallState(old(t.Snapshot()), author, nextDeck)
  {
    reply := TurnOf(t, author);
    if reply != Done {
      return;
    }
    var p := t.players[t.turnIdx.value];
    var toCall := t.currentBet - p.committed;
    var pay := RankAnalysis.Min(toCall, p.stack);
    ghost var s0 := t.Snapshot();
    assert pay == CallPays(s0);
    BetOnTable(t, pay);
    PassTurnOnTable(t);
    AfterActionOnTable(t, nextDeck);
  }

  /** The `raise` command: refused off turn or when the stack cannot cover it, otherwise the player pays the call plus the raise and the bet goes up by the raise. */
  method Raise(t: PokerTable, author: int, amount: int, nextDeck: seq<Card>) returns (reply: Reply)
    requires t.Valid() && 2 * |t.players| + 5 <= |nextDeck|
    modifies t, t.players
    ensures t.Valid() && t.players == old(t.players)
    ensures reply == RaiseReply(old(t.Snapshot()), author, amount)
    ensures t.Snapshot() == RaiseState(old(t.Snapshot()), author, amount, nextDeck)
  {
    reply := TurnOf(t, author);
    if reply != Done {
      return;
    }
    var p := t.players[t.turnIdx.value];
    var toCall := t.currentBet - p.committed;
    var total := toCall + amount;
    if total > p.stack {
      return NotEnoughChips;
    }
    RaiseDone(t.Snapshot(), author, amount, nextDeck);
    RaiseOnTable(t, amount);
    PassTurnOnTable(t);
    MaybeNextStreet(t, nextDeck);
  }

  /** A raise is the bet of the call plus the raise, then the current bet set to the old one plus the raise. */
  lemma RaisedIsBetThenBet(s0: State, s1: State, amount: int)
    requires HasTurn(s0) && s1 == Bet(s0, ToCall(s0) + amount)
    ensures s1.(currentBet := s0.currentBet + amount) == Raised(s0, amount)
  {
  }

  /** The raise itself: the call plus the raise paid, and the current bet up by the raise. */
  method RaiseOnTable(t: PokerTable, amount: int)
    requires t.Valid() && HasTurn(t.Snapshot())
    modifies t`pot, t`currentBet, t.players
    ensures t.Valid() && t.players == old(t.players) && t.Snapshot() == Raised(old(t.Snapshot()), amount)
  {
    ghost var s0 := t.Snapshot();
    var total := t.currentBet - t.players[t.turnIdx.value].committed + amount;
    var newBet := t.currentBet + amount;
    assert total == ToCall(s0) + amount && newBet == s0.currentBet + amount;
    BetOnTable(t, total);
    RaisedIsBetThenBet(s0, t.Snapshot(), amount);
    SetCurrentBet(t, newBet);
  }

  /**
   * `pay = p.stack`, `p.stack = 0`, `p.committed += pay`, `t.pot += pay`,
   * then the current bet becomes the largest live commitment or the old bet.
   */
  method GoAllIn(t: PokerTable)
    requires t.Valid() && HasTurn(t.Snapshot())
    modifies t`pot, t`currentBet, t.players
    ensures t.Valid() && t.players == old(t.players) && t.Snapshot() == WentAllIn(old(t.Snapshot()))
  {
    var pay := t.players[t.turnIdx.value].stack;
    var oldBet := t.currentBet;
    BetOnTable(t, pay);
    SetCurrentBet(t, TopCommitted(t.Seats(), |t.players|, oldBet));
  }

  /** The `allin` command: refused off turn or without chips, otherwise the whole stack goes in and the bet rises to the highest commitment. */
  method AllIn(t: PokerTable, author: int, nextDeck: seq<Card>) returns (reply: Reply)
    requires t.Valid() && 2 * |t.players| + 5 <= |nextDeck|
    modifies t, t.players
    ensures t.Valid() && t.players == old(t.players)
    ensures reply == AllInReply(old(t.Snapshot()), author)
    ensures t.Snapshot() == AllInState(old(t.Snapshot()), author, nextDeck)
  {
    reply := TurnOf(t, author);
    if reply != Done {
      return;
    }
    var p := t.players[t.turnIdx.value];
    if p.stack <= 0 {
      return NoChips;
    }
    GoAllIn(t);
    PassTurnOnTable(t);
    AfterActionOnTable(t, nextDeck);
  }

  /** The acting player folds and is marked as having acted. */
  method FoldOnTable(t: PokerTable)
    requires t.Valid() && HasTurn(t.Snapshot())
    modifies t`acted, t.players
    ensures t.Valid() && t.players == old(t.players) && t.Snapshot() == Folded(old(t.Snapshot()))
  {
    ghost var s0 := t.Snapshot();
    t.DistinctPlayers();
    var p := t.players[t.turnIdx.value];
    p.folded := true;
    t.acted := t.acted + {p.userId};
    assert t.Seats() == Folded(s0).seats;
    FoldedEffect(s0);
  }

  /** The last player in takes the pot, the hand goes idle and the winner's window opens. */
  method FoldWinOnTable(t: PokerTable, w: nat)
    requires t.Valid() && w < |t.players|
    modifies t`pot, t`street, t`showdownPending, t`pendingType, t`pendingShow, t.players
    ensures t.Valid() && t.players == old(t.players) && t.Snapshot() == FoldWin(old(t.Snapshot()), w)
  {
    ghost var s0 := t.Snapshot();
    t.DistinctPlayers();
    var winner := t.players[w];
    winner.stack := winner.stack + t.pot;
    t.pot := 0;
    t.street := Idle;
    t.StartFoldWinnerWindow(winner.userId);
    assert t.Seats() == FoldWin(s0, w).seats;
    FoldWinKeeps(s0, w);
  }

  /** Puts the turn on seat `i`. */
  method SetTurn(t: PokerTable, i: nat)
    requires t.Valid() && i < |t.players|
    modifies t`turnIdx
    ensures t.Valid() && t.players == old(t.players) && t.Snapshot() == old(t.Snapshot()).(turnIdx := Some(i))
  {
    t.turnIdx := Some(i);
  }

  /** `AfterFold` on the table. */
  method AfterFoldOnTable(t: PokerTable, i: nat, nextDeck: seq<Card>)
    requires t.Valid() && i < |t.players| && 2 * |t.players| + 5 <= |nextDeck|
    modifies t, t.players
    ensures t.Valid() && t.players == old(t.players)
    ensures t.Snapshot() == AfterFold(old(t.Snapshot()), i, nextDeck)
  {
    var alive := Alive(t.Seats(), |t.players|);
    if |alive| == 1 {
      FoldWinOnTable(t, alive[0]);
    } else {
      SetTurn(t, (i + 1) % |t.players|);
      MaybeNextStreet(t, nextDeck);
    }
  }

  /** The `fold` command: refused off turn, otherwise the player folds; a lone survivor wins the pot, else the turn passes and the hand moves on. */
  method Fold(t: PokerTable, author: int, nextDeck: seq<Card>) returns (reply: Reply)
    requires t.Valid() && 2 * |t.players| + 5 <= |nextDeck|
    modifies t, t.players
    ensures t.Valid() && t.players == old(t.players)
    ensures reply == FoldReply(old(t.Snapshot()), author)
    ensures t.Snapshot() == FoldState(old(t.Snapshot()), author, nextDeck)
  {
    reply := TurnOf(t, author);
    if reply != Done {
      return;
    }
    var i := t.turnIdx.value;
    FoldOnTable(t);
    AfterFoldOnTable(t, i, nextDeck);
  }

  /** `show` (with `Show`) and `muck` (with `Muck`). */
  method ShowOrMuck(t: PokerTable, author: int, action: Decision, nextDeck: seq<Card>) returns (finished: bool)
    requires t.Valid() && 2 * |t.players| + 5 <= |nextDeck|
    modifies t, t.players
    ensures t.Valid() && t.players == old(t.players)
    ensures finished <==> old(t.showdownPending) && author in old(t.pendingShow)
                          && AllDecided(old(t.pendingShow)[author := Some(action)])
    ensures t.Snapshot() == ShowOrMuckState(old(t.Snapshot()), author, action, nextDeck)
  {
    if !t.showdownPending || author !in t.pendingShow {
      return false;
    }
    finished := t.ResolveShowOrMuck(author, action);
    if finished {
      var _ := FinishHand(t, nextDeck);
    }
  }
}
