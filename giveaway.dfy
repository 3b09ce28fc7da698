/**
 * The giveaway widget (`GiveawayView`, main.py:182-208): a set of
 * participants that the join button adds to, refusing a second join, and a
 * winner drawn from that set when the widget times out. The random draw is a
 * parameter; the embed editing and the announcement are left to the platform.
 */
module Giveaway {
  import opened Wrappers

  type UserId = int

  /** The participants after the joins in `joins`, in order, starting from `start`. */
  function Entrants(start: set<UserId>, joins: seq<UserId>): set<UserId> {
    if joins == [] then start else Entrants(start, joins[..|joins| - 1]) + {joins[|joins| - 1]}
  }

  /** How many of those joins were accepted ("Pomyślnie dołączyłeś/aś") rather than refused as repeats. */
  function AcceptedJoins(start: set<UserId>, joins: seq<UserId>): nat {
    if joins == [] then 0
    else
      var pre := joins[..|joins| - 1];
      AcceptedJoins(start, pre) + (if joins[|joins| - 1] in Entrants(start, pre) then 0 else 1)
  }

  /**
   * Every accepted join adds exactly one participant and a refused one adds
   * none, so the number of participants is the number of accepted joins and
   * every user who pressed the button is in the set.
   */
  lemma {:induction false} EntrantsCount(start: set<UserId>, joins: seq<UserId>)
    ensures |Entrants(start, joins)| == |start| + AcceptedJoins(start, joins)
    ensures forall i :: 0 <= i < |joins| ==> joins[i] in Entrants(start, joins)
    ensures Entrants(start, joins) >= start
  {
    if joins != [] {
      var pre := joins[..|joins| - 1];
      EntrantsCount(start, pre);
      var before, x := Entrants(start, pre), joins[|joins| - 1];
      if x in before {
        assert before + {x} == before;
      } else {
        assert |before + {x}| == |before| + 1;
      }
      forall i | 0 <= i < |joins| - 1
        ensures joins[i] in Entrants(start, joins)
      {
        assert joins[i] == pre[i];
      }
    }
  }

  /** Joining again changes nothing. */
  lemma RejoinChangesNothing(start: set<UserId>, joins: seq<UserId>, user: UserId)
    requires user in Entrants(start, joins)
    ensures Entrants(start, joins + [user]) == Entrants(start, joins)
    ensures AcceptedJoins(start, joins + [user]) == AcceptedJoins(start, joins)
  {
    assert (joins + [user])[..|joins|] == joins;
  }

  /** `random.choice(list(participants)) if participants else None`; `choice` is the random pick. */
  function Draw(participants: set<UserId>, choice: UserId): (w: Option<UserId>)
    requires participants != {} ==> choice in participants
    ensures w.None? <==> participants == {}
    ensures w.Some? ==> w.value in participants
  {
    if participants == {} then None else Some(choice)
  }

  /** How the giveaway ends. */
  datatype Ending =
    | MessageGone           // the giveaway message cannot be fetched: nothing is announced
    | NoWinner              // "Zwycięzca: Brak (nikt nie wziął udziału)"
    | Winner(user: UserId)  // the winner is congratulated

  /**
   * `on_timeout`: a winner is announced only when the message still exists,
   * somebody joined, and the drawn id is truthy (non-zero) and a user the bot
   * can look up (`known`); otherwise the embed says there is no winner.
   */
  function EndingOf(messageFound: bool, participants: set<UserId>, choice: UserId, known: set<UserId>): (e: Ending)
    requires participants != {} ==> choice in participants
    ensures e == MessageGone <==> !messageFound
    ensures e.Winner? ==> e.user in participants && e.user in known && e.user != 0
    ensures messageFound && participants == {} ==> e == NoWinner
    ensures messageFound && participants != {} && choice != 0 && choice in known ==> e == Winner(choice)
  {
    if !messageFound then MessageGone
    else
      match Draw(participants, choice)
      case Some(w) => if w != 0 && w in known then Winner(w) else NoWinner
      case None => NoWinner
  }

  class GiveawayView {
    const prize: string
    var participants: set<UserId>
    /** The buttons are disabled once the giveaway has timed out. */
    var disabled: bool

    constructor (prize: string)
      ensures this.prize == prize && participants == {} && !disabled
    {
      this.prize := prize;
      participants := {};
      disabled := false;
    }

    /**
     * The join button: refused when the user already takes part, else the
     * user is added. Clicks arrive only before the timeout, which stops the
     * view and disables the button.
     */
    method Join(user: UserId) returns (joined: bool)
      requires !disabled
      modifies this
      ensures joined <==> user !in old(participants)
      ensures participants == old(participants) + {user}
      ensures disabled == old(disabled)
    {
      if user in participants {
        return false;
      }
      participants := participants + {user};
      joined := true;
    }

    /** `on_timeout`: disables the buttons and ends the giveaway with the drawn participant. */
    method OnTimeout(messageFound: bool, choice: UserId, known: set<UserId>) returns (e: Ending)
      requires participants != {} ==> choice in participants
      modifies this
      ensures disabled && participants == old(participants)
      ensures e == EndingOf(messageFound, participants, choice, known)
    {
      disabled := true;
      if !messageFound {
        return MessageGone;
      }
      var winner := Draw(participants, choice);
      if winner.Some? && winner.value != 0 && winner.value in known {
        e := Winner(winner.value);
      } else {
        e := NoWinner;
      }
    }
  }
}
