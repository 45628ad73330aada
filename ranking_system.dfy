/** The integer point ranking of autoleague/ranking_system.py: a rating per bot, created lazily
    at 0, raised by a win/close/loss point rule after every match. */
module Ranking {
  import opened Bots
  import opened Lists
  import opened Matches
  import opened Sorting

  /** The rating `get` reports: the stored one, or 0 for a bot that has none yet. */
  function RatingOf(ratings: map<BotId, int>, bot: BotId): int {
    if bot in ratings then ratings[bot] else 0
  }

  function Abs(x: int): nat {
    if x < 0 then -x else x
  }

  /** The points (blue, orange) one match earns each player of that side. */
  function Points(result: MatchResult): (r: (int, int))
    ensures 0 <= r.0 <= 2 && 0 <= r.1 <= 2
    ensures 2 <= r.0 + r.1 <= 3
  {
    var close := if Abs(result.blueGoals - result.orangeGoals) <= 1 then 1 else 0;
    (if result.blueGoals > result.orangeGoals then 2 else close,
     if result.orangeGoals > result.blueGoals then 2 else close)
  }

  /** The point rule: the side with more goals gets 2, the other side 1 when it lost by a single
      goal and 0 otherwise; a draw gives both sides 1. */
  lemma PointRule(result: MatchResult)
    ensures var (blue, orange) := Points(result);
            var (b, o) := (result.blueGoals, result.orangeGoals);
            && (b > o ==> blue == 2 && (orange == 1 <==> b - o == 1) && (orange == 0 <==> b - o >= 2))
            && (o > b ==> orange == 2 && (blue == 1 <==> o - b == 1) && (blue == 0 <==> o - b >= 2))
            && (b == o ==> blue == 1 && orange == 1)
  {
  }

  /** Exchanging the colours exchanges the points. */
  lemma PointsSymmetric(result: MatchResult)
    ensures Points(MatchResult(result.orangeGoals, result.blueGoals))
         == (Points(result).1, Points(result).0)
  {
  }

  /** Adds `p` to the rating of each listed bot, in list order. */
  function AddPoints(ratings: map<BotId, int>, bots: seq<BotId>, p: int): (r: map<BotId, int>)
    requires forall b :: b in bots ==> b in ratings
    ensures r.Keys == ratings.Keys
    decreases |bots|
  {
    if bots == [] then ratings
    else AddPoints(ratings[bots[0] := ratings[bots[0]] + p], bots[1..], p)
  }

  /** Each bot gains the points once per occurrence in the list; unlisted bots keep their rating. */
  lemma {:induction false} AddPointsCount(ratings: map<BotId, int>, bots: seq<BotId>, p: int, b: BotId)
    requires forall x :: x in bots ==> x in ratings
    requires b in ratings
    ensures AddPoints(ratings, bots, p)[b] == ratings[b] + p * Count(bots, b)
    ensures b !in bots ==> AddPoints(ratings, bots, p)[b] == ratings[b]
    decreases |bots|
  {
    if bots != [] {
      var next := ratings[bots[0] := ratings[bots[0]] + p];
      AddPointsCount(next, bots[1..], p, b);
      assert AddPoints(ratings, bots, p) == AddPoints(next, bots[1..], p);
      Distribute(p, Count(bots[1..], b));
    }
  }

  lemma Distribute(p: int, c: int)
    ensures p * (c + 1) == p * c + p
  {
  }

  /** The sort key of `as_sorted_list`: the rating. */
  function RankKey(entry: (BotId, int)): int {
    entry.1
  }

  class RankingSystem {
    var ratings: map<BotId, int>

    /** `RankingSystem(ratings)`; a missing or empty argument gives an empty map either way. */
    constructor (initial: map<BotId, int>)
      ensures ratings == initial
    {
      ratings := initial;
    }

    /** `get`: the bot's rating, created at 0 when it has none. */
    method Get(bot: BotId) returns (rating: int)
      modifies this`ratings
      ensures rating == RatingOf(old(ratings), bot)
      ensures bot in old(ratings) ==> ratings == old(ratings)
      ensures bot !in old(ratings) ==> ratings == old(ratings)[bot := 0]
    {
      if bot in ratings {
        rating := ratings[bot];
      } else {
        ratings := ratings[bot := 0];
        rating := ratings[bot];
      }
    }

    /** `ensure_all`: every listed bot has a rating afterwards (new ones 0, old ones kept);
        returns the system itself. */
    method EnsureAll(bots: seq<BotId>) returns (self: RankingSystem)
      modifies this`ratings
      ensures self == this
      ensures ratings == WithDefaults(old(ratings), bots, 0)
    {
      var i := 0;
      while i < |bots|
        invariant 0 <= i <= |bots|
        invariant WithDefaults(ratings, bots[i..], 0) == WithDefaults(old(ratings), bots, 0)
      {
        assert bots[i..][1..] == bots[i + 1..];
        var _ := Get(bots[i]);
        i := i + 1;
      }
      self := this;
    }

    /** `update`: every blue player gains the blue points and every orange player the orange
        points, once per place it holds in the team; nobody else changes. The source indexes the
        map directly, so every player must already have a rating (otherwise `KeyError`). */
    method Update(details: MatchDetails, result: MatchResult)
      requires forall b :: b in details.blue ==> b in ratings
      requires forall b :: b in details.orange ==> b in ratings
      modifies this`ratings
      ensures ratings == AddPoints(AddPoints(old(ratings), details.blue, Points(result).0),
                                   details.orange, Points(result).1)
    {
      var (blue, orange) := Points(result);
      AddToTeam(details.blue, blue);
      AddToTeam(details.orange, orange);
    }

    /** One loop of `update`: `p` points for each listed bot, once per place it holds. */
    method AddToTeam(team: seq<BotId>, p: int)
      requires forall b :: b in team ==> b in ratings
      modifies this`ratings
      ensures ratings == AddPoints(old(ratings), team, p)
    {
      var i := 0;
      while i < |team|
        invariant 0 <= i <= |team|
        invariant ratings.Keys == old(ratings).Keys
        invariant AddPoints(ratings, team[i..], p) == AddPoints(old(ratings), team, p)
      {
        assert team[i..][1..] == team[i + 1..];
        var bot := team[i];
        ratings := ratings[bot := ratings[bot] + p];
        i := i + 1;
      }
    }

    /** `as_sorted_list`: every (bot, rating) entry exactly once, by non-increasing rating. The
        source reads each rating through `get`, which for a present bot is a plain lookup. */
    method AsSortedList() returns (ranks: seq<(BotId, int)>)
      ensures |ranks| == |ratings|
      ensures forall i :: 0 <= i < |ranks| ==> ranks[i].0 in ratings && ranks[i].1 == ratings[ranks[i].0]
      ensures forall b :: b in ratings ==> exists i :: 0 <= i < |ranks| && ranks[i].0 == b
      ensures SortedDesc(ranks, RankKey)
    {
      var keys := ratings.Keys;
      var entries: seq<(BotId, int)> := [];
      while keys != {}
        invariant keys <= ratings.Keys
        invariant |entries| + |keys| == |ratings|
        invariant forall i :: 0 <= i < |entries| ==>
          entries[i].0 in ratings && entries[i].0 !in keys && entries[i].1 == ratings[entries[i].0]
        invariant forall b :: b in ratings && b !in keys ==> exists i :: 0 <= i < |entries| && entries[i].0 == b
        decreases keys
      {
        var k :| k in keys;
        ghost var before := entries;
        entries := entries + [(k, ratings[k])];
        keys := keys - {k};
        forall b | b in ratings && b !in keys
          ensures exists i :: 0 <= i < |entries| && entries[i].0 == b
        {
          if b == k {
            assert entries[|entries| - 1].0 == b;
          } else {
            var i :| 0 <= i < |before| && before[i].0 == b;
            assert entries[i].0 == b;
          }
        }
      }
      ranks := SortDesc(entries, RankKey);
      SortDescSorted(entries, RankKey);
      assert |ranks| == |multiset(ranks)| == |multiset(entries)| == |entries|;
      forall i | 0 <= i < |ranks|
        ensures ranks[i].0 in ratings && ranks[i].1 == ratings[ranks[i].0]
      {
        assert ranks[i] in multiset(entries);
      }
      forall b | b in ratings
        ensures exists i :: 0 <= i < |ranks| && ranks[i].0 == b
      {
        var j :| 0 <= j < |entries| && entries[j].0 == b;
        assert entries[j] in multiset(ranks);
      }
    }
  }
}
