/**
 * What the page derives from a room snapshot: whether anyone has voted,
 * whether the "Show Votes" and "Clear Votes" buttons are enabled, and the
 * average of the votes. JavaScript truthiness is written out: an absent
 * number and the number 0 are both falsy.
 */
module Votes {
  import opened Wrappers
  import opened Room

  /** The vote buttons the page offers, in order. */
  const VoteValues: seq<real> := [0.5, 1.0, 1.5, 2.0, 3.0, 4.0, 5.0, 6.0, 7.0, 8.0]

  /** `player.vote` used as a condition: undefined and 0 are the falsy numbers. */
  predicate HasVote(p: Player): (b: bool)
    ensures b <==> p.vote !in {None, Some(0.0)}
  {
    p.vote.Some? && p.vote.value != 0.0
  }

  /** `player.votedAt` used as a condition: undefined and 0 are falsy. */
  predicate HasVotedAt(p: Player): (b: bool)
    ensures b <==> p.votedAt !in {None, Some(0)}
  {
    p.votedAt.Some? && p.votedAt.value != 0
  }

  /** `player.vote || 0`: non-zero exactly when the vote is truthy, and then the vote itself. */
  function VoteOrZero(p: Player): (r: real)
    ensures r != 0.0 <==> HasVote(p)
    ensures HasVote(p) ==> Some(r) == p.vote
  {
    if HasVote(p) then p.vote.value else 0.0
  }

  // ---------------------------------------------------------------------
  // Who has voted, and the two button flags

  /** `players.some((player) => player.votedAt)` */
  function AnyVotedAt(players: seq<Player>): (r: bool)
    ensures r <==> exists i :: 0 <= i < |players| && HasVotedAt(players[i])
  {
    if players == [] then false
    else
      assert forall j :: 0 <= j < |players| - 1 ==> players[1..][j] == players[j + 1];
      HasVotedAt(players[0]) || AnyVotedAt(players[1..])
  }

  /** `state?.players.some(...)`: undefined (falsy) when there is no snapshot. */
  function SomeoneVoted(state: Option<Snapshot>): (r: bool)
    ensures r <==> state.Some? && exists i :: 0 <= i < |state.value.players| && HasVotedAt(state.value.players[i])
  {
    state.Some? && AnyVotedAt(state.value.players)
  }

  /** `someoneVoted && !state?.areVotesVisible` */
  function ShowVotesEnabled(state: Option<Snapshot>): (r: bool)
    ensures r <==> state.Some? && !state.value.areVotesVisible &&
                   exists i :: 0 <= i < |state.value.players| && HasVotedAt(state.value.players[i])
  {
    SomeoneVoted(state) && !state.value.areVotesVisible
  }

  /** `someoneVoted && state?.areVotesVisible` */
  function ClearVotesEnabled(state: Option<Snapshot>): (r: bool)
    ensures r <==> state.Some? && state.value.areVotesVisible &&
                   exists i :: 0 <= i < |state.value.players| && HasVotedAt(state.value.players[i])
    ensures r ==> !ShowVotesEnabled(state)
  {
    SomeoneVoted(state) && state.value.areVotesVisible
  }

  /**
   * The two buttons are never enabled together; both are disabled while
   * there is no snapshot or no player carries `votedAt`; otherwise exactly
   * one is enabled, chosen by whether the votes are visible.
   */
  lemma VoteButtons(state: Option<Snapshot>)
    ensures !(ShowVotesEnabled(state) && ClearVotesEnabled(state))
    ensures !SomeoneVoted(state) ==> !ShowVotesEnabled(state) && !ClearVotesEnabled(state)
    ensures SomeoneVoted(state) ==>
              (ShowVotesEnabled(state) <==> !state.value.areVotesVisible) &&
              (ClearVotesEnabled(state) <==> state.value.areVotesVisible)
  {
  }

  /**
   * The flags look at `votedAt`, not at `vote`: a player who carries a vote
   * but no timestamp enables neither button.
   */
  lemma FlagsIgnoreVoteWithoutTimestamp(v: real, visible: bool)
    requires v != 0.0
    ensures var p := Player("id", "name", Some(v), None);
            var state := Some(Snapshot([p], 0, visible));
            HasVote(p) && !ShowVotesEnabled(state) && !ClearVotesEnabled(state)
  {
    var p := Player("id", "name", Some(v), None);
    assert !AnyVotedAt([p][1..]);
  }

  // ---------------------------------------------------------------------
  // The average shown once the votes are visible

  /** `players.filter((player) => player.vote)`, in order. */
  function VotedPlayers(players: seq<Player>): (r: seq<Player>)
    ensures |r| <= |players|
    ensures forall q :: q in r ==> q in players && HasVote(q)
    ensures forall i :: 0 <= i < |players| && HasVote(players[i]) ==> players[i] in r
  {
    if players == [] then []
    else
      var init, last := players[..|players| - 1], players[|players| - 1];
      assert forall i :: 0 <= i < |init| ==> init[i] == players[i];
      VotedPlayers(init) + (if HasVote(last) then [last] else [])
  }

  /**
   * The filter keeps each player with a truthy vote as often as it occurs
   * and drops every other player.
   */
  lemma {:induction false} VotedPlayersMultiset(players: seq<Player>)
    ensures forall x :: multiset(VotedPlayers(players))[x] == if HasVote(x) then multiset(players)[x] else 0
    decreases |players|
  {
    if players != [] {
      var init, last := players[..|players| - 1], players[|players| - 1];
      VotedPlayersMultiset(init);
      assert players == init + [last];
      assert multiset(players) == multiset(init) + multiset([last]);
    }
  }

  /** The number of players with a truthy vote, counted from the front. */
  function CountVoted(players: seq<Player>): nat {
    if players == [] then 0
    else (if HasVote(players[0]) then 1 else 0) + CountVoted(players[1..])
  }

  /** The filter keeps exactly as many players as have a truthy vote. */
  lemma {:induction false} VotedPlayersCount(players: seq<Player>)
    ensures |VotedPlayers(players)| == CountVoted(players)
    decreases |players|
  {
    if players != [] {
      var init, last := players[..|players| - 1], players[|players| - 1];
      VotedPlayersCount(init);
      CountVotedAppend(init, last);
      assert init + [last] == players;
    }
  }

  /** Counting one more player adds one exactly when that player has a truthy vote. */
  lemma {:induction false} CountVotedAppend(players: seq<Player>, p: Player)
    ensures CountVoted(players + [p]) == CountVoted(players) + (if HasVote(p) then 1 else 0)
    decreases |players|
  {
    if players == [] {
      assert [] + [p] == [p];
    } else {
      assert (players + [p])[1..] == players[1..] + [p];
      CountVotedAppend(players[1..], p);
    }
  }

  /** `players.reduce((accumulator, player) => accumulator + (player.vote || 0), 0)`, a left fold. */
  function VotesSum(players: seq<Player>): (r: real)
    ensures (forall i :: 0 <= i < |players| ==> !HasVote(players[i])) ==> r == 0.0
    ensures (forall i :: 0 <= i < |players| ==> VoteOrZero(players[i]) >= 0.0) ==> r >= 0.0
  {
    if players == [] then 0.0
    else
      var init := players[..|players| - 1];
      assert forall i :: 0 <= i < |init| ==> init[i] == players[i];
      VotesSum(init) + VoteOrZero(players[|players| - 1])
  }

  /**
   * `votesSum / votedPlayers.length` on exact reals; None stands for the
   * NaN that 0 / 0 gives. When defined, the mean times the count is the sum.
   */
  function Mean(sum: real, count: nat): (r: Option<real>)
    ensures r.None? <==> count == 0
    ensures r.Some? ==> r.value * count as real == sum
  {
    if count == 0 then None else Some(sum / count as real)
  }

  /**
   * The average vote of the players with a truthy vote: undefined exactly
   * when there are none, and otherwise the sum of `vote || 0` over everyone
   * divided by their number.
   */
  function Average(players: seq<Player>): (r: Option<real>)
    ensures r.None? <==> CountVoted(players) == 0
    ensures r.Some? ==> r.value == VotesSum(players) / CountVoted(players) as real
  {
    var voted := VotedPlayers(players);
    VotedPlayersCount(players);
    FilterKeepsSum(players);
    Mean(VotesSum(voted), |voted|)
  }

  /** Summing one more player adds that player's `vote || 0`. */
  lemma VotesSumAppend(players: seq<Player>, p: Player)
    ensures VotesSum(players + [p]) == VotesSum(players) + VoteOrZero(p)
  {
    assert (players + [p])[..|players|] == players;
  }

  /** Summing a concatenation sums the parts. */
  lemma {:induction false} VotesSumConcat(a: seq<Player>, b: seq<Player>)
    ensures VotesSum(a + b) == VotesSum(a) + VotesSum(b)
    decreases |b|
  {
    if b == [] {
      assert a + b == a;
    } else {
      var init, last := b[..|b| - 1], b[|b| - 1];
      assert a + b == (a + init) + [last];
      VotesSumAppend(a + init, last);
      VotesSumConcat(a, init);
    }
  }

  /**
   * Filtering does not change the sum: players without a truthy vote add 0,
   * so the sum of the counted votes is the sum of `vote || 0` over everyone.
   */
  lemma {:induction false} FilterKeepsSum(players: seq<Player>)
    ensures VotesSum(VotedPlayers(players)) == VotesSum(players)
  {
    if players != [] {
      var init, last := players[..|players| - 1], players[|players| - 1];
      FilterKeepsSum(init);
      var tail := if HasVote(last) then [last] else [];
      VotesSumConcat(VotedPlayers(init), tail);
      if HasVote(last) {
        VotesSumAppend([], last);
      }
    }
  }

  /** `x` added `n` times: the sum of `n` votes that all equal `x`. */
  function Repeated(n: nat, x: real): real {
    if n == 0 then 0.0 else Repeated(n - 1, x) + x
  }

  lemma {:induction false} RepeatedIsProduct(n: nat, x: real)
    ensures Repeated(n, x) == n as real * x
  {
    if n > 0 {
      RepeatedIsProduct(n - 1, x);
      var k := (n - 1) as real;
      assert n as real * x == k * x + x;
    }
  }

  /** The sum of `n` votes that all lie in [lo, hi] lies between `lo` and `hi` taken `n` times. */
  lemma {:induction false} VotesSumBounds(voted: seq<Player>, lo: real, hi: real)
    requires forall q :: q in voted ==> lo <= VoteOrZero(q) <= hi
    ensures Repeated(|voted|, lo) <= VotesSum(voted) <= Repeated(|voted|, hi)
  {
    if voted != [] {
      var init, last := voted[..|voted| - 1], voted[|voted| - 1];
      assert last in voted;
      assert forall q :: q in init ==> q in voted;
      VotesSumBounds(init, lo, hi);
    }
  }

  /** The average is undefined (NaN) exactly when no player has a truthy vote. */
  lemma AverageUndefined(players: seq<Player>)
    ensures Average(players).None? <==> forall i :: 0 <= i < |players| ==> !HasVote(players[i])
  {
    if Average(players).Some? {
      var q := VotedPlayers(players)[0];
      assert q in VotedPlayers(players);
    }
  }

  /** A defined mean of values that all lie in [lo, hi] lies in [lo, hi]. */
  lemma MeanBetween(sum: real, count: nat, lo: real, hi: real)
    requires Repeated(count, lo) <= sum <= Repeated(count, hi)
    ensures Mean(sum, count).Some? ==> lo <= Mean(sum, count).value <= hi
  {
    if count > 0 {
      RepeatedIsProduct(count, lo);
      RepeatedIsProduct(count, hi);
      var n, m := count as real, Mean(sum, count).value;
      assert n * m == sum;
      ScaleMonotone(n, lo, m);
      ScaleMonotone(n, m, hi);
    }
  }

  lemma ScaleMonotone(n: real, x: real, y: real)
    requires n > 0.0 && n * x <= n * y
    ensures x <= y
  {
  }

  /**
   * The average is the sum of `vote || 0` over all players divided by the
   * number of players with a truthy vote.
   */
  lemma AverageIsMean(players: seq<Player>)
    ensures Average(players) == Mean(VotesSum(players), CountVoted(players))
  {
    FilterKeepsSum(players);
    VotedPlayersCount(players);
  }

  /** When every counted vote lies in [lo, hi], so does a defined average. */
  lemma AverageWithin(players: seq<Player>, lo: real, hi: real)
    requires forall i :: 0 <= i < |players| && HasVote(players[i]) ==> lo <= players[i].vote.value <= hi
    ensures Average(players).Some? ==> lo <= Average(players).value <= hi
  {
    var voted := VotedPlayers(players);
    if |voted| > 0 {
      forall q | q in voted ensures lo <= VoteOrZero(q) <= hi {
        var i :| 0 <= i < |players| && players[i] == q;
      }
      MeanOfBounded(voted, lo, hi);
    }
  }

  /** A defined mean of counted votes that all lie in [lo, hi] lies in [lo, hi]. */
  lemma MeanOfBounded(voted: seq<Player>, lo: real, hi: real)
    requires forall q :: q in voted ==> lo <= VoteOrZero(q) <= hi
    ensures Mean(VotesSum(voted), |voted|).Some? ==> lo <= Mean(VotesSum(voted), |voted|).value <= hi
  {
    VotesSumBounds(voted, lo, hi);
    MeanBetween(VotesSum(voted), |voted|, lo, hi);
  }

  /** The smallest `vote || 0` in a non-empty list, and where it occurs. */
  function MinVote(voted: seq<Player>): (m: real)
    requires |voted| > 0
    ensures exists i :: 0 <= i < |voted| && VoteOrZero(voted[i]) == m
    ensures forall q :: q in voted ==> m <= VoteOrZero(q)
  {
    var init, last := voted[..|voted| - 1], voted[|voted| - 1];
    if |voted| == 1 then VoteOrZero(last)
    else
      var m := MinVote(init);
      assert forall i :: 0 <= i < |init| ==> init[i] == voted[i];
      assert forall q :: q in voted ==> q in init || q == last;
      if VoteOrZero(last) < m then VoteOrZero(last) else m
  }

  /** The largest `vote || 0` in a non-empty list, and where it occurs. */
  function MaxVote(voted: seq<Player>): (m: real)
    requires |voted| > 0
    ensures exists i :: 0 <= i < |voted| && VoteOrZero(voted[i]) == m
    ensures forall q :: q in voted ==> VoteOrZero(q) <= m
  {
    var init, last := voted[..|voted| - 1], voted[|voted| - 1];
    if |voted| == 1 then VoteOrZero(last)
    else
      var m := MaxVote(init);
      assert forall i :: 0 <= i < |init| ==> init[i] == voted[i];
      assert forall q :: q in voted ==> q in init || q == last;
      if VoteOrZero(last) > m then VoteOrZero(last) else m
  }

  /** A defined average lies between the smallest and the largest counted vote. */
  lemma AverageBetweenExtremes(players: seq<Player>)
    ensures Average(players).Some? ==>
              exists i, j :: 0 <= i < |players| && 0 <= j < |players| &&
                HasVote(players[i]) && HasVote(players[j]) &&
                players[i].vote.value <= Average(players).value <= players[j].vote.value
  {
    var voted := VotedPlayers(players);
    if |voted| > 0 {
      var lo, hi := MinVote(voted), MaxVote(voted);
      MeanOfBounded(voted, lo, hi);
      var a :| 0 <= a < |voted| && VoteOrZero(voted[a]) == lo;
      var b :| 0 <= b < |voted| && VoteOrZero(voted[b]) == hi;
      assert voted[a] in voted && voted[b] in voted;
      var i :| 0 <= i < |players| && players[i] == voted[a];
      var j :| 0 <= j < |players| && players[j] == voted[b];
      assert HasVote(players[i]) && HasVote(players[j]);
    }
  }

  /** Votes cast with the page's own buttons average to a value in [0.5, 8]. */
  lemma AverageOfOfferedValues(players: seq<Player>)
    requires forall i :: 0 <= i < |players| && HasVote(players[i]) ==> players[i].vote.value in VoteValues
    ensures Average(players).Some? ==> 0.5 <= Average(players).value <= 8.0
  {
    AverageWithin(players, 0.5, 8.0);
  }

  /** Votes 1, 2 and 3 average to 2. */
  lemma AverageOfOneTwoThree()
    ensures Average([Player("a", "A", Some(1.0), Some(1)),
                     Player("b", "B", Some(2.0), Some(2)),
                     Player("c", "C", Some(3.0), Some(3))]) == Some(2.0)
  {
    var a, b, c := Player("a", "A", Some(1.0), Some(1)), Player("b", "B", Some(2.0), Some(2)), Player("c", "C", Some(3.0), Some(3));
    assert [a, b, c][..2] == [a, b];
    assert [a, b][..1] == [a];
    assert VotedPlayers([a]) == [a];
    assert VotedPlayers([a, b]) == [a, b];
    assert VotedPlayers([a, b, c]) == [a, b, c];
    assert VotesSum([a]) == 1.0;
    assert VotesSum([a, b]) == 3.0;
    assert VotesSum([a, b, c]) == 6.0;
  }

  /** A lone player without a vote gives an undefined average, not 0. */
  lemma AverageOfNoVotes()
    ensures Average([Player("a", "A", None, None)]) == None
  {
  }

  /** A vote of 0 is falsy: it is neither summed nor counted. */
  lemma ZeroVoteIsNotCounted()
    ensures Average([Player("a", "A", Some(0.0), Some(1)),
                     Player("b", "B", Some(2.0), Some(2))]) == Some(2.0)
  {
    var a, b := Player("a", "A", Some(0.0), Some(1)), Player("b", "B", Some(2.0), Some(2));
    assert [a, b][..1] == [a];
    assert VotedPlayers([a, b]) == [b];
  }
}
