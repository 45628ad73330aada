/** The two team-composition searches of autoleague/match_maker.py (`MatchMaker`). Each search
    draws six bots by their ticket balances, splits them into two teams of three and asks
    TrueSkill how fair the match is; randomness and TrueSkill are oracles passed in as functions. */
module MatchMaker {
  import opened Wrappers
  import opened Bots
  import opened Lists
  import opened Sorting
  import opened Ranking
  import opened Tickets

  /** The minimum match quality `decide_on_players` ever demands. */
  const MinReqFairness: real := 0.3

  /** The number of draws each search makes (`limit`, `num_bot_groups_to_test`). */
  const Tries: nat := 400

  /** `random.shuffle`: for a round, the shuffled list. */
  type Shuffler = (nat, seq<BotId>) -> seq<BotId>

  /** `trueskill.quality([blue, orange])` over the two teams' ratings. */
  type Quality = (seq<int>, seq<int>) -> real

  /** The random sources and TrueSkill a search consults. */
  datatype Oracles = Oracles(sample: Sampler, shuffle: Shuffler, quality: Quality)

  /** `random.shuffle` rearranges the list. */
  ghost predicate SoundShuffler(shuffle: Shuffler) {
    forall round: nat, s: seq<BotId> :: multiset(shuffle(round, s)) == multiset(s)
  }

  /** numpy draws properly and `random.shuffle` only rearranges. */
  ghost predicate Sound(o: Oracles) {
    SoundSampler(o.sample) && SoundShuffler(o.shuffle)
  }

  /** TrueSkill's quality is a probability, never negative. */
  ghost predicate NonNegativeQuality(quality: Quality) {
    forall blue: seq<int>, orange: seq<int> :: quality(blue, orange) >= 0.0
  }

  // ---------------------------------------------------------------- ratings

  /** The ratings of a team, in team order, as `rank_sys.get` reports them. */
  function TeamRatings(ratings: map<BotId, int>, team: seq<BotId>): (r: seq<int>)
    ensures |r| == |team|
    ensures forall i :: 0 <= i < |team| ==> r[i] == RatingOf(ratings, team[i])
  {
    seq(|team|, i requires 0 <= i < |team| => RatingOf(ratings, team[i]))
  }

  /** `after` is `before` with only zero ratings added, and only for bots of the roster: the
      trace `rank_sys.get` leaves behind. */
  predicate OnlyZeroesAdded(before: map<BotId, int>, after: map<BotId, int>, bots: seq<BotId>) {
    && before.Keys <= after.Keys
    && (forall b :: b in before ==> after[b] == before[b])
    && (forall b :: b in after && b !in before ==> after[b] == 0 && b in bots)
  }

  /** Adding zero ratings changes no rating `get` reports. */
  lemma OnlyZeroesAddedRatings(before: map<BotId, int>, after: map<BotId, int>, bots: seq<BotId>, team: seq<BotId>)
    requires OnlyZeroesAdded(before, after, bots)
    ensures TeamRatings(after, team) == TeamRatings(before, team)
  {
    forall i | 0 <= i < |team| ensures RatingOf(after, team[i]) == RatingOf(before, team[i]) {
      var b := team[i];
      if b in after && b !in before {
        assert after[b] == 0;
      }
    }
  }

  /** `[rank_sys.get(bot) for bot in team]`: the ratings, creating a zero rating for each bot
      that has none. */
  method LookupRatings(rank: RankingSystem, team: seq<BotId>) returns (ratings: seq<int>)
    modifies rank`ratings
    ensures ratings == TeamRatings(old(rank.ratings), team)
    ensures rank.ratings == WithDefaults(old(rank.ratings), team, 0)
  {
    ratings := [];
    var i := 0;
    while i < |team|
      invariant 0 <= i <= |team|
      invariant rank.ratings == WithDefaults(old(rank.ratings), team[..i], 0)
      invariant |ratings| == i
      invariant forall j :: 0 <= j < i ==> ratings[j] == RatingOf(old(rank.ratings), team[j])
    {
      ghost var current := rank.ratings;
      var rating := rank.Get(team[i]);
      LookupStep(old(rank.ratings), team, i, current, rank.ratings);
      ReadStep(old(rank.ratings), team, i, ratings, rating);
      ratings := ratings + [rating];
      i := i + 1;
    }
    assert team[..i] == team;
    assert ratings == TeamRatings(old(rank.ratings), team);
  }

  /** One lookup of `LookupRatings`: reading the next bot's rating ensures that bot too, and
      reports the rating it had before the loop. */
  lemma LookupStep(before: map<BotId, int>, team: seq<BotId>, i: nat, current: map<BotId, int>, after: map<BotId, int>)
    requires i < |team|
    requires current == WithDefaults(before, team[..i], 0)
    requires team[i] in current ==> after == current
    requires team[i] !in current ==> after == current[team[i] := 0]
    ensures RatingOf(current, team[i]) == RatingOf(before, team[i])
    ensures after == WithDefaults(before, team[..i + 1], 0)
  {
    WithDefaultsSnoc(before, team[..i], team[i], 0);
    assert team[..i + 1] == team[..i] + [team[i]];
  }

  /** One lookup of `LookupRatings`, seen from the ratings read: the next bot's rating is
      appended. */
  lemma ReadStep(before: map<BotId, int>, team: seq<BotId>, i: nat, ratings: seq<int>, rating: int)
    requires i < |team|
    requires |ratings| == i
    requires forall j :: 0 <= j < i ==> ratings[j] == RatingOf(before, team[j])
    requires rating == RatingOf(before, team[i])
    ensures |ratings + [rating]| == i + 1
    ensures forall j :: 0 <= j < i + 1 ==> (ratings + [rating])[j] == RatingOf(before, team[j])
  {
  }

  /** What `rank_sys.get` on a roster's bots leaves behind keeps the ratings `get` reports. */
  lemma ZeroDefaultsAdded(before: map<BotId, int>, now: map<BotId, int>, bots: seq<BotId>, team: seq<BotId>)
    requires OnlyZeroesAdded(before, now, bots)
    requires forall b :: b in team ==> b in bots
    ensures OnlyZeroesAdded(before, WithDefaults(now, team, 0), bots)
  {
  }

  // ---------------------------------------------------------------- decide_on_players

  /** The numbers of the rounds from round `n` on, in order. Both loops are specified over
      such a sequence rather than by counting: the verifier then never unfolds all rounds of a
      search on its own. */
  function RoundsFrom(n: nat): (r: seq<nat>)
    requires n <= Tries
    ensures |r| == Tries - n
  {
    RoundNumbers()[n..]
  }

  /** All round numbers, first to last. */
  function RoundNumbers(): (r: seq<nat>)
    ensures |r| == Tries
    ensures forall k :: 0 <= k < Tries ==> r[k] == k
  {
    seq(Tries, k requires 0 <= k => k)
  }

  /** The first of the rounds from `n` on is `n`; the others are the rounds from `n + 1` on. */
  lemma RoundsFromNext(n: nat)
    requires n < Tries
    ensures RoundsFrom(n)[0] == n
    ensures RoundsFrom(n)[1..] == RoundsFrom(n + 1)
  {
  }

  /** `min(tries_left / limit, MIN_REQ_FAIRNESS)`: the quality a draw needs when `triesLeft`
      draws remain after it. */
  function RequiredFairness(triesLeft: nat): (r: real)
    ensures 0.0 <= r <= MinReqFairness
    ensures r <= triesLeft as real / Tries as real
    ensures triesLeft == 0 <==> r == 0.0
  {
    var share := triesLeft as real / Tries as real;
    if MinReqFairness < share then MinReqFairness else share
  }

  /** Round `n` of `decide_on_players`: the draw of `pick_bots`, shuffled. */
  function Shuffled(tickets: map<BotId, real>, bots: seq<BotId>, o: Oracles, n: nat): (r: Result<seq<BotId>, MatchError>)
    requires forall b :: b in bots ==> b in tickets
    requires Sound(o)
    ensures r.Ok? <==> PickFrom(tickets, bots, n, o.sample).Ok?
    ensures r.Ok? ==> multiset(r.value) == multiset(PickFrom(tickets, bots, n, o.sample).value)
    ensures r.Ok? ==> |r.value| == MatchSize && forall b :: b in r.value ==> b in bots
  {
    match PickFrom(tickets, bots, n, o.sample)
    case Err(e) => Err(e)
    case Ok(picked) =>
      var s := o.shuffle(n, picked);
      assert multiset(s) == multiset(picked);
      assert forall b :: b in s ==> b in multiset(picked);
      Ok(s)
  }

  /** Whether a round with `triesLeft` rounds after it accepts the split of `s` into its first
      and last three bots. */
  predicate Fair(ratings: map<BotId, int>, quality: Quality, s: seq<BotId>, triesLeft: nat)
    requires |s| == MatchSize
  {
    quality(TeamRatings(ratings, s[..3]), TeamRatings(ratings, s[3..])) >= RequiredFairness(triesLeft)
  }

  /** Round `n` drew six bots but their split was not fair enough. */
  predicate Rejected(tickets: map<BotId, real>, bots: seq<BotId>, ratings: map<BotId, int>, o: Oracles, n: nat)
    requires forall b :: b in bots ==> b in tickets
    requires Sound(o)
    requires n < Tries
  {
    var s := Shuffled(tickets, bots, o, n);
    s.Ok? && !Fair(ratings, o.quality, s.value, Tries - 1 - n)
  }

  /** What each round of `decide_on_players` draws and shuffles. */
  type Draws = nat -> Result<seq<BotId>, MatchError>

  /** Every successful draw has six bots of the roster. */
  ghost predicate DrawsFrom(draws: Draws, bots: seq<BotId>) {
    forall k: nat :: draws(k).Ok? ==> |draws(k).value| == MatchSize && forall b :: b in draws(k).value ==> b in bots
  }

  /** The shuffled draws of all rounds, as one function of the round number, chosen among the
      functions that agree with `Shuffled` on every round: a proof learns what round `k` drew
      only where it speaks of `Shuffled` for `k`. */
  ghost function ShuffledDraws(tickets: map<BotId, real>, bots: seq<BotId>, o: Oracles): (r: Draws)
    requires forall b :: b in bots ==> b in tickets
    requires Sound(o)
    ensures DrawsFrom(r, bots)
    ensures forall k: nat {:trigger Shuffled(tickets, bots, o, k)} :: r(k) == Shuffled(tickets, bots, o, k)
  {
    var draws: Draws := (k: nat) => Shuffled(tickets, bots, o, k);
    assert DrawsFrom(draws, bots);
    var r: Draws :| && DrawsFrom(r, bots)
                    && forall k: nat {:trigger Shuffled(tickets, bots, o, k)} :: r(k) == Shuffled(tickets, bots, o, k);
    r
  }

  /** The loop of `decide_on_players` over the rounds numbered `ks`, the last one last: the
      first fair draw, the error of the first draw numpy rejects, or `NoFairMatch` after the
      last round. */
  ghost function SearchDraws(draws: Draws, bots: seq<BotId>, ratings: map<BotId, int>, quality: Quality, ks: seq<nat>): (r: Result<seq<BotId>, MatchError>)
    requires DrawsFrom(draws, bots)
    ensures r.Ok? ==> |r.value| == MatchSize && forall b :: b in r.value ==> b in bots
    decreases |ks|
  {
    if ks == [] then Err(NoFairMatch)
    else
      match draws(ks[0])
      case Err(e) => Err(e)
      case Ok(s) => if Fair(ratings, quality, s, |ks| - 1) then Ok(s) else SearchDraws(draws, bots, ratings, quality, ks[1..])
  }

  /** The search of `decide_on_players` on the ensured balances over the rounds numbered `ks`. */
  ghost function Search(tickets: map<BotId, real>, bots: seq<BotId>, ratings: map<BotId, int>, o: Oracles, ks: seq<nat>): (r: Result<seq<BotId>, MatchError>)
    requires forall b :: b in bots ==> b in tickets
    requires Sound(o)
    ensures r.Ok? ==> |r.value| == MatchSize && forall b :: b in r.value ==> b in bots
  {
    SearchDraws(ShuffledDraws(tickets, bots, o), bots, ratings, o.quality, ks)
  }

  /** Every round from `n` up to (not including) `m` drew six bots and rejected them. */
  ghost predicate AllRejected(tickets: map<BotId, real>, bots: seq<BotId>, ratings: map<BotId, int>, o: Oracles, n: nat, m: nat)
    requires forall b :: b in bots ==> b in tickets
    requires Sound(o)
    requires m <= Tries
  {
    forall k :: n <= k < m ==> Rejected(tickets, bots, ratings, o, k)
  }

  /** The search returns the first fair draw: when every earlier round was rejected and round
      `m` is fair, the search from `n` returns round `m`'s draw. */
  lemma {:induction false} SearchFindsFirstFair(tickets: map<BotId, real>, bots: seq<BotId>, ratings: map<BotId, int>, o: Oracles, n: nat, m: nat, s: seq<BotId>)
    requires forall b :: b in bots ==> b in tickets
    requires Sound(o)
    requires n <= m < Tries
    requires AllRejected(tickets, bots, ratings, o, n, m)
    requires Shuffled(tickets, bots, o, m) == Ok(s)
    requires Fair(ratings, o.quality, s, Tries - 1 - m)
    ensures Search(tickets, bots, ratings, o, RoundsFrom(n)) == Ok(s)
    decreases m - n
  {
    SearchStep(tickets, bots, ratings, o, n);
    if n < m {
      assert Rejected(tickets, bots, ratings, o, n);
      SearchFindsFirstFair(tickets, bots, ratings, o, n + 1, m, s);
    }
  }

  /** Conversely, a draw the search returns is the draw of a fair round `m` all of whose
      predecessors were rejected. */
  lemma {:induction false} SearchFoundExplained(tickets: map<BotId, real>, bots: seq<BotId>, ratings: map<BotId, int>, o: Oracles, n: nat)
    returns (m: nat)
    requires forall b :: b in bots ==> b in tickets
    requires Sound(o)
    requires n <= Tries
    requires Search(tickets, bots, ratings, o, RoundsFrom(n)).Ok?
    ensures n <= m < Tries
    ensures AllRejected(tickets, bots, ratings, o, n, m)
    ensures Shuffled(tickets, bots, o, m) == Ok(Search(tickets, bots, ratings, o, RoundsFrom(n)).value)
    ensures Fair(ratings, o.quality, Search(tickets, bots, ratings, o, RoundsFrom(n)).value, Tries - 1 - m)
    decreases Tries - n
  {
    SearchStep(tickets, bots, ratings, o, n);
    var first := Shuffled(tickets, bots, o, n);
    if Fair(ratings, o.quality, first.value, Tries - 1 - n) {
      m := n;
    } else {
      m := SearchFoundExplained(tickets, bots, ratings, o, n + 1);
      AllRejectedExtend(tickets, bots, ratings, o, n, m);
    }
  }

  /** A rejected round in front of rejected rounds. */
  lemma AllRejectedExtend(tickets: map<BotId, real>, bots: seq<BotId>, ratings: map<BotId, int>, o: Oracles, n: nat, m: nat)
    requires forall b :: b in bots ==> b in tickets
    requires Sound(o)
    requires n < m <= Tries
    requires Rejected(tickets, bots, ratings, o, n)
    requires AllRejected(tickets, bots, ratings, o, n + 1, m)
    ensures AllRejected(tickets, bots, ratings, o, n, m)
  {
  }

  /** `NoFairMatch` means every remaining round drew six bots and rejected them. */
  lemma {:induction false} SearchExhaustedExplained(tickets: map<BotId, real>, bots: seq<BotId>, ratings: map<BotId, int>, o: Oracles, n: nat)
    requires forall b :: b in bots ==> b in tickets
    requires Sound(o)
    requires n <= Tries
    requires Search(tickets, bots, ratings, o, RoundsFrom(n)) == Err(NoFairMatch)
    ensures AllRejected(tickets, bots, ratings, o, n, Tries)
    decreases Tries - n
  {
    if n < Tries {
      SearchStep(tickets, bots, ratings, o, n);
      assert Rejected(tickets, bots, ratings, o, n);
      SearchExhaustedExplained(tickets, bots, ratings, o, n + 1);
    }
  }

  /** The ensured balances do not change between rounds, so numpy refuses every draw or none:
      the search fails with `InsufficientPool` exactly when the roster cannot be drawn from. */
  lemma {:induction false} SearchErrorExplained(tickets: map<BotId, real>, bots: seq<BotId>, ratings: map<BotId, int>, o: Oracles, n: nat)
    requires forall b :: b in bots ==> b in tickets
    requires Sound(o)
    requires n <= Tries
    ensures Search(tickets, bots, ratings, o, RoundsFrom(n)) == Err(InsufficientPool) <==> n < Tries && !Poolable(tickets, bots)
    decreases Tries - n
  {
    if n < Tries {
      SearchStep(tickets, bots, ratings, o, n);
    }
    if n < Tries && Poolable(tickets, bots) {
      var first := Shuffled(tickets, bots, o, n);
      if !Fair(ratings, o.quality, first.value, Tries - 1 - n) {
        SearchErrorExplained(tickets, bots, ratings, o, n + 1);
      }
    }
  }

  /** Since the last round demands a quality of zero, a TrueSkill that never reports a negative
      quality means the search never runs out of rounds. */
  lemma {:induction false} SearchNeverExhausted(tickets: map<BotId, real>, bots: seq<BotId>, ratings: map<BotId, int>, o: Oracles, n: nat)
    requires forall b :: b in bots ==> b in tickets
    requires Sound(o)
    requires NonNegativeQuality(o.quality)
    requires n < Tries
    ensures Search(tickets, bots, ratings, o, RoundsFrom(n)) != Err(NoFairMatch)
    decreases Tries - n
  {
    var first := Shuffled(tickets, bots, o, n);
    SearchStep(tickets, bots, ratings, o, n);
    if first.Ok? {
      if n == Tries - 1 {
        var s := first.value;
        assert o.quality(TeamRatings(ratings, s[..3]), TeamRatings(ratings, s[3..])) >= 0.0;
        assert Fair(ratings, o.quality, s, Tries - 1 - n);
      } else {
        SearchNeverExhausted(tickets, bots, ratings, o, n + 1);
      }
    }
  }

  /** A found match has six bots of the roster, all different when the roster has no repeats. */
  lemma SearchTeams(tickets: map<BotId, real>, bots: seq<BotId>, ratings: map<BotId, int>, o: Oracles, n: nat)
    requires forall b :: b in bots ==> b in tickets
    requires Sound(o)
    requires NoDup(bots)
    requires n <= Tries
    requires Search(tickets, bots, ratings, o, RoundsFrom(n)).Ok?
    ensures NoDup(Search(tickets, bots, ratings, o, RoundsFrom(n)).value)
  {
    var m := SearchFoundExplained(tickets, bots, ratings, o, n);
    var s := Search(tickets, bots, ratings, o, RoundsFrom(n)).value;
    var picked := PickFrom(tickets, bots, m, o.sample).value;
    PickFromDraw(tickets, bots, m, o.sample);
    PermutationNoDup(picked, s);
  }

  /** One round of the search, unfolded. */
  lemma SearchStep(tickets: map<BotId, real>, bots: seq<BotId>, ratings: map<BotId, int>, o: Oracles, n: nat)
    requires forall b :: b in bots ==> b in tickets
    requires Sound(o)
    requires n < Tries
    ensures var first := Shuffled(tickets, bots, o, n);
            && (first.Err? ==> Search(tickets, bots, ratings, o, RoundsFrom(n)) == Err(InsufficientPool))
            && (first.Ok? && Fair(ratings, o.quality, first.value, Tries - 1 - n) ==> Search(tickets, bots, ratings, o, RoundsFrom(n)) == first)
            && (first.Ok? && !Fair(ratings, o.quality, first.value, Tries - 1 - n) ==> Search(tickets, bots, ratings, o, RoundsFrom(n)) == Search(tickets, bots, ratings, o, RoundsFrom(n + 1)))
  {
    RoundsFromNext(n);
    assert ShuffledDraws(tickets, bots, o)(n) == Shuffled(tickets, bots, o, n);
  }

  /** The ratings one round reads agree with the ratings the search started from, and the
      lookup only adds zero ratings of roster bots. */
  lemma RoundRatings(before: map<BotId, int>, current: map<BotId, int>, bots: seq<BotId>, s: seq<BotId>, ratings: seq<int>)
    requires OnlyZeroesAdded(before, current, bots)
    requires forall b :: b in s ==> b in bots
    requires |s| == MatchSize
    requires ratings == TeamRatings(current, s)
    ensures ratings[..3] == TeamRatings(before, s[..3])
    ensures ratings[3..] == TeamRatings(before, s[3..])
    ensures OnlyZeroesAdded(before, WithDefaults(current, s, 0), bots)
  {
    OnlyZeroesAddedRatings(before, current, bots, s[..3]);
    OnlyZeroesAddedRatings(before, current, bots, s[3..]);
    assert ratings[..3] == TeamRatings(current, s[..3]);
    assert ratings[3..] == TeamRatings(current, s[3..]);
  }

  /** `decide_on_players`: up to 400 rounds of drawing six bots, shuffling them and accepting
      the first split whose quality reaches the round's demand; the chosen bots' tickets are
      reset and every other roster bot's grow. A numpy error ends the search at once. */
  method DecideOnPlayers(ticketSys: TicketSystem, bots: seq<BotId>, rank: RankingSystem, o: Oracles)
    returns (r: Result<(seq<BotId>, seq<BotId>), MatchError>)
    requires Sound(o)
    modifies ticketSys`tickets, rank`ratings
    ensures var ensured := WithDefaults(old(ticketSys.tickets), bots, ticketSys.newBotTicketCount);
            var found := Search(ensured, bots, old(rank.ratings), o, RoundsFrom(0));
            && (found.Ok? ==> && r == Ok((found.value[..3], found.value[3..]))
                              && ticketSys.tickets == Chosen(ensured, found.value, bots, ticketSys.ticketIncreaseRate))
            && (found.Err? ==> r == Err(found.error) && ticketSys.tickets == ensured)
    ensures OnlyZeroesAdded(old(rank.ratings), rank.ratings, bots)
  {
    ghost var ensured := WithDefaults(ticketSys.tickets, bots, ticketSys.newBotTicketCount);
    ghost var before := rank.ratings;
    var triesLeft := Tries;
    while triesLeft > 0
      invariant 0 <= triesLeft <= Tries
      invariant triesLeft == Tries ==> ticketSys.tickets == old(ticketSys.tickets)
      invariant triesLeft < Tries ==> ticketSys.tickets == ensured
      invariant OnlyZeroesAdded(before, rank.ratings, bots)
      invariant Search(ensured, bots, before, o, RoundsFrom(Tries - triesLeft)) == Search(ensured, bots, before, o, RoundsFrom(0))
    {
      triesLeft := triesLeft - 1;
      var round := Tries - 1 - triesLeft;
      ghost var held := ticketSys.tickets;
      var picked := ticketSys.PickBots(bots, round, o.sample);
      WithDefaultsAgain(old(ticketSys.tickets), held, bots, ticketSys.newBotTicketCount);
      SearchStep(ensured, bots, before, o, round);
      if picked.Err? {
        r := Err(picked.error);
        return;
      }
      var s := o.shuffle(round, picked.value);
      ghost var current := rank.ratings;
      var ratings := LookupRatings(rank, s);
      RoundRatings(before, current, bots, s, ratings);
      if o.quality(ratings[..3], ratings[3..]) >= RequiredFairness(triesLeft) {
        ticketSys.Choose(s, bots);
        r := Ok((s[..3], s[3..]));
        return;
      }
    }
    r := Err(NoFairMatch);
  }

  // ---------------------------------------------------------------- decide_on_players_2

  /** A drawn bot with the rating it had when drawn. Equality compares both fields, as the
      dataclass's generated `__eq__` does. */
  datatype Candidate = Candidate(botId: BotId, rating: int)

  /** The sort key of the candidates: their rating. */
  function CandidateKey(c: Candidate): int {
    c.rating
  }

  function CandidateId(c: Candidate): BotId {
    c.botId
  }

  /** Three positions into the six candidates, ranked best first, that form the blue team. */
  type Balance = (nat, nat, nat)

  /** best player with the two worst, and three variations of it. */
  const LikelyBalances: seq<Balance> := [(0, 4, 5), (0, 3, 5), (0, 2, 5), (0, 3, 4)]

  /** A balance names three different candidates. */
  predicate ValidBalance(b: Balance) {
    b.0 < MatchSize && b.1 < MatchSize && b.2 < MatchSize && b.0 != b.1 && b.0 != b.2 && b.1 != b.2
  }

  lemma LikelyBalancesValid()
    ensures forall j :: 0 <= j < |LikelyBalances| ==> ValidBalance(LikelyBalances[j])
  {
  }

  /** The candidates of a draw, with the ratings `rank_sys.get` reports, best first. A stable
      sort keeps the draw's order among equal ratings. */
  function Ranked(ratings: map<BotId, int>, picked: seq<BotId>): (r: seq<Candidate>)
    ensures multiset(r) == multiset(Map((b: BotId) => Candidate(b, RatingOf(ratings, b)), picked))
    ensures SortedDesc(r, CandidateKey)
    ensures |r| == |picked|
  {
    var unsorted := Map((b: BotId) => Candidate(b, RatingOf(ratings, b)), picked);
    SortDescSorted(unsorted, CandidateKey);
    SortDesc(unsorted, CandidateKey)
  }

  /** `[c for c in candidates if c not in blue]`. */
  function Outside(candidates: seq<Candidate>, blue: seq<Candidate>): (r: seq<Candidate>)
    ensures forall c :: c in r <==> c in candidates && c !in blue
  {
    if candidates == [] then []
    else (if candidates[0] in blue then [] else [candidates[0]]) + Outside(candidates[1..], blue)
  }

  /** A proposed match: the blue candidates and the orange ones. */
  datatype Split = Split(blue: seq<Candidate>, orange: seq<Candidate>)

  /** The split a balance makes of the ranked candidates. */
  function SplitBy(candidates: seq<Candidate>, b: Balance): (r: Split)
    requires |candidates| == MatchSize && ValidBalance(b)
    ensures r.blue == [candidates[b.0], candidates[b.1], candidates[b.2]]
    ensures r.orange == Outside(candidates, r.blue)
  {
    var blue := [candidates[b.0], candidates[b.1], candidates[b.2]];
    Split(blue, Outside(candidates, blue))
  }

  /** TrueSkill's verdict on a split. */
  function SplitQuality(quality: Quality, split: Split): real {
    quality(Map(CandidateKey, split.blue), Map(CandidateKey, split.orange))
  }

  /** The best split found so far and its quality (`best_quality_found`, `best_match`). */
  datatype Best = Best(quality: real, teams: Option<Split>)

  /** The inner loop over the likely balances: a split replaces the best one only when its
      quality is strictly higher. */
  function ScanBalances(quality: Quality, candidates: seq<Candidate>, balances: seq<Balance>, best: Best): Best
    requires |candidates| == MatchSize
    requires forall j :: 0 <= j < |balances| ==> ValidBalance(balances[j])
    decreases |balances|
  {
    if balances == [] then best
    else
      var split := SplitBy(candidates, balances[0]);
      var q := SplitQuality(quality, split);
      ScanBalances(quality, candidates, balances[1..], if q > best.quality then Best(q, Some(split)) else best)
  }

  /** The inner loop never ends with a worse quality than it started with. */
  lemma {:induction false} ScanBalancesImproves(quality: Quality, candidates: seq<Candidate>, balances: seq<Balance>, best: Best)
    requires |candidates| == MatchSize
    requires forall j :: 0 <= j < |balances| ==> ValidBalance(balances[j])
    ensures ScanBalances(quality, candidates, balances, best).quality >= best.quality
    decreases |balances|
  {
    if balances != [] {
      var split := SplitBy(candidates, balances[0]);
      var q := SplitQuality(quality, split);
      ScanBalancesImproves(quality, candidates, balances[1..], if q > best.quality then Best(q, Some(split)) else best);
    }
  }

  /** No balance the inner loop tries beats its result. */
  lemma {:induction false} ScanBalancesMaximal(quality: Quality, candidates: seq<Candidate>, balances: seq<Balance>, best: Best)
    requires |candidates| == MatchSize
    requires forall j :: 0 <= j < |balances| ==> ValidBalance(balances[j])
    ensures forall j :: 0 <= j < |balances| ==>
              SplitQuality(quality, SplitBy(candidates, balances[j])) <= ScanBalances(quality, candidates, balances, best).quality
    decreases |balances|
  {
    if balances != [] {
      var split := SplitBy(candidates, balances[0]);
      var q := SplitQuality(quality, split);
      var next := if q > best.quality then Best(q, Some(split)) else best;
      var r := ScanBalances(quality, candidates, balances[1..], next);
      assert r == ScanBalances(quality, candidates, balances, best);
      ScanBalancesImproves(quality, candidates, balances[1..], next);
      ScanBalancesMaximal(quality, candidates, balances[1..], next);
      forall j | 0 <= j < |balances|
        ensures SplitQuality(quality, SplitBy(candidates, balances[j])) <= r.quality
      {
        if j > 0 {
          assert balances[j] == balances[1..][j - 1];
        }
      }
    }
  }

  /** `best` holds the split of one of `balances`, with its quality. */
  ghost predicate FoundAmong(quality: Quality, candidates: seq<Candidate>, balances: seq<Balance>, best: Best)
    requires |candidates| == MatchSize
    requires forall j :: 0 <= j < |balances| ==> ValidBalance(balances[j])
  {
    exists j :: 0 <= j < |balances| && best == Best(SplitQuality(quality, SplitBy(candidates, balances[j])), Some(SplitBy(candidates, balances[j])))
  }

  /** The inner loop's result is the old best, or a tried split of strictly higher quality. */
  lemma {:induction false} ScanBalancesFound(quality: Quality, candidates: seq<Candidate>, balances: seq<Balance>, best: Best)
    requires |candidates| == MatchSize
    requires forall j :: 0 <= j < |balances| ==> ValidBalance(balances[j])
    ensures var r := ScanBalances(quality, candidates, balances, best);
            r == best || (r.quality > best.quality && FoundAmong(quality, candidates, balances, r))
    decreases |balances|
  {
    if balances != [] {
      var split := SplitBy(candidates, balances[0]);
      var q := SplitQuality(quality, split);
      var next := if q > best.quality then Best(q, Some(split)) else best;
      var r := ScanBalances(quality, candidates, balances[1..], next);
      assert r == ScanBalances(quality, candidates, balances, best);
      ScanBalancesFound(quality, candidates, balances[1..], next);
      if r != best {
        if r == next {
          assert FoundAmong(quality, candidates, balances, r) by {
            assert r == Best(SplitQuality(quality, SplitBy(candidates, balances[0])), Some(SplitBy(candidates, balances[0])));
          }
        } else {
          var j :| 0 <= j < |balances[1..]|
                   && r == Best(SplitQuality(quality, SplitBy(candidates, balances[1..][j])), Some(SplitBy(candidates, balances[1..][j])));
          assert balances[1..][j] == balances[j + 1];
        }
      }
    }
  }

  /** The ranked candidates of every round, six each. */
  type Rounds = nat -> seq<Candidate>

  ghost predicate SixEach(rounds: Rounds) {
    forall k: nat :: |rounds(k)| == MatchSize
  }

  /** Every balance of `balances` names three different candidates. */
  ghost predicate AllValid(balances: seq<Balance>) {
    forall j :: 0 <= j < |balances| ==> ValidBalance(balances[j])
  }

  /** The outer loop of `decide_on_players_2` from round `n` on: every round tries the
      balances on its ranked candidates. */
  function ScanRounds(quality: Quality, rounds: Rounds, balances: seq<Balance>, n: nat, best: Best): Best
    requires SixEach(rounds) && AllValid(balances)
    decreases Tries - n
  {
    if n >= Tries then best
    else ScanRounds(quality, rounds, balances, n + 1, ScanBalances(quality, rounds(n), balances, best))
  }

  /** The scan never ends with a worse quality than it started with. */
  lemma {:induction false} ScanRoundsImproves(quality: Quality, rounds: Rounds, balances: seq<Balance>, n: nat, best: Best)
    requires SixEach(rounds) && AllValid(balances)
    ensures ScanRounds(quality, rounds, balances, n, best).quality >= best.quality
    decreases Tries - n
  {
    if n < Tries {
      var next := ScanBalances(quality, rounds(n), balances, best);
      ScanBalancesImproves(quality, rounds(n), balances, best);
      ScanRoundsImproves(quality, rounds, balances, n + 1, next);
    }
  }

  /** No split of a remaining round beats the scan's result. */
  lemma {:induction false} ScanRoundsMaximal(quality: Quality, rounds: Rounds, balances: seq<Balance>, n: nat, best: Best, k: nat, j: nat)
    requires SixEach(rounds) && AllValid(balances)
    requires n <= k < Tries && j < |balances|
    ensures SplitQuality(quality, SplitBy(rounds(k), balances[j])) <= ScanRounds(quality, rounds, balances, n, best).quality
    decreases Tries - n
  {
    var next := ScanBalances(quality, rounds(n), balances, best);
    if k == n {
      ScanBalancesMaximal(quality, rounds(n), balances, best);
      ScanRoundsImproves(quality, rounds, balances, n + 1, next);
    } else {
      ScanRoundsMaximal(quality, rounds, balances, n + 1, next, k, j);
    }
  }

  /** The scan's result is the old best, or the split of one balance of one remaining round,
      of strictly higher quality. */
  lemma {:induction false} ScanRoundsFound(quality: Quality, rounds: Rounds, balances: seq<Balance>, n: nat, best: Best)
    returns (k: nat, j: nat)
    requires SixEach(rounds) && AllValid(balances)
    ensures var r := ScanRounds(quality, rounds, balances, n, best);
            || r == best
            || (&& n <= k < Tries && j < |balances|
                && r.quality > best.quality
                && r == Best(SplitQuality(quality, SplitBy(rounds(k), balances[j])), Some(SplitBy(rounds(k), balances[j]))))
    decreases Tries - n
  {
    k, j := 0, 0;
    if n < Tries {
      var next := ScanBalances(quality, rounds(n), balances, best);
      var r := ScanRounds(quality, rounds, balances, n + 1, next);
      ScanBalancesImproves(quality, rounds(n), balances, best);
      ScanBalancesFound(quality, rounds(n), balances, best);
      k, j := ScanRoundsFound(quality, rounds, balances, n + 1, next);
      if r == next && next != best {
        k := n;
        j :| 0 <= j < |balances|
             && next == Best(SplitQuality(quality, SplitBy(rounds(n), balances[j])), Some(SplitBy(rounds(n), balances[j])));
      }
    }
  }

  /** The ranked candidates of round `k`, when the roster can be drawn from. */
  function RoundCandidates(tickets: map<BotId, real>, bots: seq<BotId>, ratings: map<BotId, int>, o: Oracles, k: nat): (r: seq<Candidate>)
    requires forall b :: b in bots ==> b in tickets
    requires SoundSampler(o.sample)
    requires Poolable(tickets, bots)
    ensures |r| == MatchSize
  {
    Ranked(ratings, PickFrom(tickets, bots, k, o.sample).value)
  }

  /** The rounds of `decide_on_players_2` on the ensured balances, as one function of the round
      number. It is chosen among the functions that agree with `RoundCandidates` on every round,
      so a proof learns what round `k` holds only where it speaks of `RoundCandidates` for `k`;
      the loop over the rounds never has to look inside a draw. */
  ghost function DrawnRounds(tickets: map<BotId, real>, bots: seq<BotId>, ratings: map<BotId, int>, o: Oracles): (r: Rounds)
    requires forall b :: b in bots ==> b in tickets
    requires SoundSampler(o.sample)
    requires Poolable(tickets, bots)
    ensures SixEach(r)
    ensures forall k: nat {:trigger RoundCandidates(tickets, bots, ratings, o, k)} ::
              r(k) == RoundCandidates(tickets, bots, ratings, o, k)
  {
    var rounds: Rounds := (k: nat) => RoundCandidates(tickets, bots, ratings, o, k);
    assert SixEach(rounds);
    var r: Rounds :| && SixEach(r)
                     && forall k: nat {:trigger RoundCandidates(tickets, bots, ratings, o, k)} ::
                          r(k) == RoundCandidates(tickets, bots, ratings, o, k);
    r
  }

  /** Round `k` of `decide_on_players_2` on the ensured balances, seen from the outer loop:
      the likely balances tried on the round's ranked candidates, starting from `best`. */
  function RoundStep(tickets: map<BotId, real>, bots: seq<BotId>, ratings: map<BotId, int>, o: Oracles, k: nat, best: Best): Best
    requires forall b :: b in bots ==> b in tickets
    requires SoundSampler(o.sample)
    requires Poolable(tickets, bots)
  {
    LikelyBalancesValid();
    ScanBalances(o.quality, RoundCandidates(tickets, bots, ratings, o, k), LikelyBalances, best)
  }

  /** What each round makes of the best split found before it. */
  type RoundSteps = (nat, Best) -> Best

  /** All rounds of `decide_on_players_2` on the ensured balances, as one function of the round
      number and the best split so far, chosen like `DrawnRounds`: a proof learns what a round
      makes of `best` only where it speaks of `RoundStep` for them. */
  ghost function DrawnSteps(tickets: map<BotId, real>, bots: seq<BotId>, ratings: map<BotId, int>, o: Oracles): (r: RoundSteps)
    requires forall b :: b in bots ==> b in tickets
    requires SoundSampler(o.sample)
    requires Poolable(tickets, bots)
    ensures forall k: nat, best: Best {:trigger RoundStep(tickets, bots, ratings, o, k, best)} ::
              r(k, best) == RoundStep(tickets, bots, ratings, o, k, best)
  {
    var steps: RoundSteps := (k: nat, best: Best) => RoundStep(tickets, bots, ratings, o, k, best);
    var r: RoundSteps :| forall k: nat, best: Best {:trigger RoundStep(tickets, bots, ratings, o, k, best)} ::
                          r(k, best) == RoundStep(tickets, bots, ratings, o, k, best);
    r
  }

  /** The rounds' steps are the likely balances tried on the drawn rounds. */
  lemma DrawnStepsScan(tickets: map<BotId, real>, bots: seq<BotId>, ratings: map<BotId, int>, o: Oracles)
    requires forall b :: b in bots ==> b in tickets
    requires SoundSampler(o.sample)
    requires Poolable(tickets, bots)
    ensures AllValid(LikelyBalances)
    ensures forall k: nat, best: Best ::
              DrawnSteps(tickets, bots, ratings, o)(k, best)
              == ScanBalances(o.quality, DrawnRounds(tickets, bots, ratings, o)(k), LikelyBalances, best)
  {
    LikelyBalancesValid();
    var steps := DrawnSteps(tickets, bots, ratings, o);
    var rounds := DrawnRounds(tickets, bots, ratings, o);
    forall k: nat, best: Best
      ensures steps(k, best) == ScanBalances(o.quality, rounds(k), LikelyBalances, best)
    {
      assert steps(k, best) == RoundStep(tickets, bots, ratings, o, k, best);
      assert rounds(k) == RoundCandidates(tickets, bots, ratings, o, k);
    }
  }

  /** The best split over all rounds is the scan of the drawn rounds with the likely balances. */
  lemma BestOfRoundsScan(tickets: map<BotId, real>, bots: seq<BotId>, ratings: map<BotId, int>, o: Oracles)
    requires forall b :: b in bots ==> b in tickets
    requires SoundSampler(o.sample)
    requires Poolable(tickets, bots)
    ensures AllValid(LikelyBalances)
    ensures BestOfRounds(tickets, bots, ratings, o)
            == ScanRounds(o.quality, DrawnRounds(tickets, bots, ratings, o), LikelyBalances, 0, Best(0.0, None))
  {
    DrawnStepsScan(tickets, bots, ratings, o);
    ScanFromRounds(o.quality, DrawnRounds(tickets, bots, ratings, o), LikelyBalances, DrawnSteps(tickets, bots, ratings, o), 0, Best(0.0, None));
  }

  /** The split balance `j` makes in round `k`. */
  function RoundSplit(tickets: map<BotId, real>, bots: seq<BotId>, ratings: map<BotId, int>, o: Oracles, k: nat, j: nat): Split
    requires forall b :: b in bots ==> b in tickets
    requires SoundSampler(o.sample)
    requires Poolable(tickets, bots)
    requires j < |LikelyBalances|
  {
    SplitBy(RoundCandidates(tickets, bots, ratings, o, k), LikelyBalances[j])
  }

  /** The outcome of `decide_on_players_2` on the ensured balances. Every round draws from the
      same balances, so numpy refuses the first draw or none; otherwise the best split over all
      rounds, or `NoFairMatch` when no split had a positive quality (the source then fails on
      `None`). */
  ghost function Decide2(tickets: map<BotId, real>, bots: seq<BotId>, ratings: map<BotId, int>, o: Oracles): Result<Split, MatchError>
    requires forall b :: b in bots ==> b in tickets
    requires SoundSampler(o.sample)
  {
    if !Poolable(tickets, bots) then Err(InsufficientPool)
    else
      var best := BestOfRounds(tickets, bots, ratings, o);
      if best.teams.None? then Err(NoFairMatch) else Ok(best.teams.value)
  }

  /** The best split over all rounds, starting from quality 0 and no match. */
  ghost function BestOfRounds(tickets: map<BotId, real>, bots: seq<BotId>, ratings: map<BotId, int>, o: Oracles): Best
    requires forall b :: b in bots ==> b in tickets
    requires SoundSampler(o.sample)
    requires Poolable(tickets, bots)
  {
    ScanFrom(DrawnSteps(tickets, bots, ratings, o), RoundsFrom(0), Best(0.0, None))
  }

  /** `decide_on_players_2` returns the split of one round and balance; its quality is
      positive and no split of any round and balance has a higher one. */
  lemma Decide2Best(tickets: map<BotId, real>, bots: seq<BotId>, ratings: map<BotId, int>, o: Oracles)
    returns (k: nat, j: nat)
    requires forall b :: b in bots ==> b in tickets
    requires SoundSampler(o.sample)
    requires Decide2(tickets, bots, ratings, o).Ok?
    ensures Poolable(tickets, bots)
    ensures k < Tries && j < |LikelyBalances|
    ensures Decide2(tickets, bots, ratings, o).value == RoundSplit(tickets, bots, ratings, o, k, j)
    ensures SplitQuality(o.quality, Decide2(tickets, bots, ratings, o).value) > 0.0
    ensures forall k': nat, j': nat :: k' < Tries && j' < |LikelyBalances| ==>
              SplitQuality(o.quality, RoundSplit(tickets, bots, ratings, o, k', j')) <= SplitQuality(o.quality, Decide2(tickets, bots, ratings, o).value)
  {
    var rounds := DrawnRounds(tickets, bots, ratings, o);
    var start := Best(0.0, None);
    BestOfRoundsScan(tickets, bots, ratings, o);
    k, j := ScanRoundsFound(o.quality, rounds, LikelyBalances, 0, start);
    var r := ScanRounds(o.quality, rounds, LikelyBalances, 0, start);
    assert r != start;
    assert rounds(k) == RoundCandidates(tickets, bots, ratings, o, k);
    forall k': nat, j': nat | k' < Tries && j' < |LikelyBalances|
      ensures SplitQuality(o.quality, RoundSplit(tickets, bots, ratings, o, k', j')) <= r.quality
    {
      ScanRoundsMaximal(o.quality, rounds, LikelyBalances, 0, start, k', j');
      assert rounds(k') == RoundCandidates(tickets, bots, ratings, o, k');
    }
  }

  /** When `decide_on_players_2` finds no match, no split of any round and balance had a
      positive quality. */
  lemma Decide2NoFairMatchSound(tickets: map<BotId, real>, bots: seq<BotId>, ratings: map<BotId, int>, o: Oracles, k: nat, j: nat)
    requires forall b :: b in bots ==> b in tickets
    requires SoundSampler(o.sample)
    requires Decide2(tickets, bots, ratings, o) == Err(NoFairMatch)
    requires k < Tries && j < |LikelyBalances|
    ensures Poolable(tickets, bots)
    ensures SplitQuality(o.quality, RoundSplit(tickets, bots, ratings, o, k, j)) <= 0.0
  {
    var rounds := DrawnRounds(tickets, bots, ratings, o);
    var start := Best(0.0, None);
    BestOfRoundsScan(tickets, bots, ratings, o);
    var k', j' := ScanRoundsFound(o.quality, rounds, LikelyBalances, 0, start);
    ScanRoundsMaximal(o.quality, rounds, LikelyBalances, 0, start, k, j);
    assert rounds(k) == RoundCandidates(tickets, bots, ratings, o, k);
  }

  /** When some split of some round and balance has a positive quality,
      `decide_on_players_2` does not fail for want of a fair match. */
  lemma Decide2FairMatchFound(tickets: map<BotId, real>, bots: seq<BotId>, ratings: map<BotId, int>, o: Oracles, k: nat, j: nat)
    requires forall b :: b in bots ==> b in tickets
    requires SoundSampler(o.sample)
    requires Poolable(tickets, bots)
    requires k < Tries && j < |LikelyBalances|
    requires SplitQuality(o.quality, RoundSplit(tickets, bots, ratings, o, k, j)) > 0.0
    ensures Decide2(tickets, bots, ratings, o).Ok?
  {
    var rounds := DrawnRounds(tickets, bots, ratings, o);
    var start := Best(0.0, None);
    BestOfRoundsScan(tickets, bots, ratings, o);
    var k', j' := ScanRoundsFound(o.quality, rounds, LikelyBalances, 0, start);
    ScanRoundsMaximal(o.quality, rounds, LikelyBalances, 0, start, k, j);
    assert rounds(k) == RoundCandidates(tickets, bots, ratings, o, k);
    var r := ScanRounds(o.quality, rounds, LikelyBalances, 0, start);
    assert r.quality > 0.0;
    assert r.teams.Some?;
    assert Decide2(tickets, bots, ratings, o) == Ok(r.teams.value);
  }

  /** `decide_on_players_2` finds no match exactly when the roster can be drawn from but no
      split of any round and balance has a positive quality. */
  lemma Decide2NoFairMatch(tickets: map<BotId, real>, bots: seq<BotId>, ratings: map<BotId, int>, o: Oracles)
    requires forall b :: b in bots ==> b in tickets
    requires SoundSampler(o.sample)
    ensures Decide2(tickets, bots, ratings, o) == Err(NoFairMatch)
            <==> Poolable(tickets, bots) && NoPositiveSplit(tickets, bots, ratings, o)
  {
    var d := Decide2(tickets, bots, ratings, o);
    if d == Err(NoFairMatch) {
      Decide2NoFairMatchAll(tickets, bots, ratings, o);
    } else if d.Ok? {
      var k, j := Decide2Best(tickets, bots, ratings, o);
    }
  }

  /** A failure for want of a fair match leaves no split of positive quality. */
  lemma Decide2NoFairMatchAll(tickets: map<BotId, real>, bots: seq<BotId>, ratings: map<BotId, int>, o: Oracles)
    requires forall b :: b in bots ==> b in tickets
    requires SoundSampler(o.sample)
    requires Decide2(tickets, bots, ratings, o) == Err(NoFairMatch)
    ensures Poolable(tickets, bots) && NoPositiveSplit(tickets, bots, ratings, o)
  {
    assert Poolable(tickets, bots);
    forall k: nat, j: nat | k < Tries && j < |LikelyBalances|
      ensures SplitQuality(o.quality, RoundSplit(tickets, bots, ratings, o, k, j)) <= 0.0
    {
      Decide2NoFairMatchSound(tickets, bots, ratings, o, k, j);
    }
  }

  /** No split of any round and balance has a positive quality. */
  ghost predicate NoPositiveSplit(tickets: map<BotId, real>, bots: seq<BotId>, ratings: map<BotId, int>, o: Oracles)
    requires forall b :: b in bots ==> b in tickets
    requires SoundSampler(o.sample)
    requires Poolable(tickets, bots)
  {
    forall k: nat, j: nat :: k < Tries && j < |LikelyBalances| ==>
      SplitQuality(o.quality, RoundSplit(tickets, bots, ratings, o, k, j)) <= 0.0
  }

  /** `[c for c in candidates if c not in blue]` keeps each candidate outside `blue` as often
      as it occurs and drops the others. */
  lemma {:induction false} OutsideCount(candidates: seq<Candidate>, blue: seq<Candidate>, x: Candidate)
    ensures multiset(Outside(candidates, blue))[x] == if x in blue then 0 else multiset(candidates)[x]
    decreases |candidates|
  {
    if candidates != [] {
      var head := if candidates[0] in blue then [] else [candidates[0]];
      assert Outside(candidates, blue) == head + Outside(candidates[1..], blue);
      assert multiset(Outside(candidates, blue)) == multiset(head) + multiset(Outside(candidates[1..], blue));
      assert candidates == [candidates[0]] + candidates[1..];
      assert multiset(candidates) == multiset{candidates[0]} + multiset(candidates[1..]);
      OutsideCount(candidates[1..], blue, x);
    }
  }

  /** A balance splits six different candidates into two teams of three that share nobody and
      together are the six. */
  lemma SplitByPartition(candidates: seq<Candidate>, b: Balance)
    requires |candidates| == MatchSize && ValidBalance(b) && NoDup(candidates)
    ensures var split := SplitBy(candidates, b);
            && |split.blue| == 3 && |split.orange| == 3
            && multiset(split.blue + split.orange) == multiset(candidates)
            && NoDup(split.blue + split.orange)
  {
    var split := SplitBy(candidates, b);
    var blue := split.blue;
    assert NoDup(blue);
    forall x ensures multiset(blue + split.orange)[x] == multiset(candidates)[x] {
      OutsideCount(candidates, blue, x);
      NoDupCount(candidates, x);
      NoDupCount(blue, x);
      assert multiset(blue + split.orange)[x] == multiset(blue)[x] + multiset(split.orange)[x];
      if x in blue {
        assert x in candidates;
      }
    }
    assert multiset(blue + split.orange) == multiset(candidates);
    PermutationNoDup(candidates, blue + split.orange);
  }

  /** The ranked candidates of a draw without repeats have none either, and their bot ids are
      the draw rearranged. */
  lemma RankedIds(ratings: map<BotId, int>, picked: seq<BotId>)
    requires NoDup(picked)
    ensures NoDup(Ranked(ratings, picked))
    ensures multiset(Map(CandidateId, Ranked(ratings, picked))) == multiset(picked)
  {
    var unsorted := Map((b: BotId) => Candidate(b, RatingOf(ratings, b)), picked);
    var ranked := Ranked(ratings, picked);
    forall i, j | 0 <= i < j < |unsorted| ensures unsorted[i] != unsorted[j] {
      assert unsorted[i].botId == picked[i] && unsorted[j].botId == picked[j];
    }
    PermutationNoDup(unsorted, ranked);
    MapPermutation(CandidateId, unsorted, ranked);
    assert Map(CandidateId, unsorted) == picked;
  }

  /** `decide_on_players_2` returns two teams of three that share no bot and together are the
      six bots of one draw, blue being one likely balance of that draw ranked by rating. */
  lemma Decide2Teams(tickets: map<BotId, real>, bots: seq<BotId>, ratings: map<BotId, int>, o: Oracles)
    returns (k: nat, j: nat)
    requires forall b :: b in bots ==> b in tickets
    requires SoundSampler(o.sample)
    requires NoDup(bots)
    requires Decide2(tickets, bots, ratings, o).Ok?
    ensures Poolable(tickets, bots) && k < Tries && j < |LikelyBalances|
    ensures var split := Decide2(tickets, bots, ratings, o).value;
            var blueIds := Map(CandidateId, split.blue);
            var orangeIds := Map(CandidateId, split.orange);
            && split == RoundSplit(tickets, bots, ratings, o, k, j)
            && |blueIds| == 3 && |orangeIds| == 3
            && NoDup(blueIds + orangeIds)
            && multiset(blueIds + orangeIds) == multiset(PickFrom(tickets, bots, k, o.sample).value)
  {
    k, j := Decide2Best(tickets, bots, ratings, o);
    var picked := PickFrom(tickets, bots, k, o.sample).value;
    PickFromDraw(tickets, bots, k, o.sample);
    RankedIds(ratings, picked);
    var ranked := Ranked(ratings, picked);
    LikelyBalancesValid();
    var split := SplitBy(ranked, LikelyBalances[j]);
    SplitByPartition(ranked, LikelyBalances[j]);
    MapPermutation(CandidateId, split.blue + split.orange, ranked);
    MapConcat(CandidateId, split.blue, split.orange);
    PermutationNoDup(picked, Map(CandidateId, split.blue + split.orange));
  }

  /** The outer loop over the rounds numbered `ks`, in order, each step taking the best split
      so far to the next: the loop invariant of `PlayRounds`. */
  ghost function ScanFrom(steps: RoundSteps, ks: seq<nat>, best: Best): Best
    decreases |ks|
  {
    if ks == [] then best
    else ScanFrom(steps, ks[1..], steps(ks[0], best))
  }

  /** Stepping through the rounds from `n` on, where each step tries the balances on its round,
      is the scan of those rounds with those balances. */
  lemma {:induction false} ScanFromRounds(quality: Quality, rounds: Rounds, balances: seq<Balance>, steps: RoundSteps, n: nat, best: Best)
    requires SixEach(rounds) && AllValid(balances)
    requires forall k: nat, b: Best :: steps(k, b) == ScanBalances(quality, rounds(k), balances, b)
    requires n <= Tries
    ensures ScanFrom(steps, RoundsFrom(n), best) == ScanRounds(quality, rounds, balances, n, best)
    decreases Tries - n
  {
    if n < Tries {
      RoundsFromNext(n);
      ScanFromRounds(quality, rounds, balances, steps, n + 1, steps(n, best));
    }
  }

  /** The candidates built from a draw and the ratings read for it, ranked, are the ranking of
      the draw. */
  lemma CandidatesRanked(ratings: map<BotId, int>, picked: seq<BotId>, read: seq<int>)
    requires read == TeamRatings(ratings, picked)
    ensures SortDesc(Candidates(picked, read), CandidateKey) == Ranked(ratings, picked)
  {
    assert Candidates(picked, read) == Map((b: BotId) => Candidate(b, RatingOf(ratings, b)), picked);
  }

  /** Adding zero ratings does not change how a draw ranks. */
  lemma RankedOnlyZeroesAdded(before: map<BotId, int>, after: map<BotId, int>, bots: seq<BotId>, picked: seq<BotId>)
    requires OnlyZeroesAdded(before, after, bots)
    ensures Ranked(after, picked) == Ranked(before, picked)
  {
    OnlyZeroesAddedRatings(before, after, bots, picked);
    assert TeamRatings(after, picked) == TeamRatings(before, picked);
    CandidatesRanked(after, picked, TeamRatings(after, picked));
    CandidatesRanked(before, picked, TeamRatings(before, picked));
  }

  /** `[Candidate(bot, rank_sys.get(bot)) for bot in picked]`, from the ratings read for the draw. */
  function Candidates(picked: seq<BotId>, ratings: seq<int>): (r: seq<Candidate>)
    requires |ratings| == |picked|
    ensures |r| == |picked|
    ensures forall i :: 0 <= i < |picked| ==> r[i] == Candidate(picked[i], ratings[i])
  {
    seq(|picked|, i requires 0 <= i < |picked| => Candidate(picked[i], ratings[i]))
  }

  /** The `for balance in likely_balances` loop of one round: each balance's split replaces the
      best one found so far when its quality is strictly higher. */
  method TryBalances(quality: Quality, candidates: seq<Candidate>, bestQuality: real, bestMatch: Option<Split>)
    returns (newQuality: real, newMatch: Option<Split>)
    requires |candidates| == MatchSize
    ensures AllValid(LikelyBalances)
    ensures Best(newQuality, newMatch) == ScanBalances(quality, candidates, LikelyBalances, Best(bestQuality, bestMatch))
  {
    LikelyBalancesValid();
    newQuality, newMatch := bestQuality, bestMatch;
    var j := 0;
    while j < |LikelyBalances|
      invariant 0 <= j <= |LikelyBalances|
      invariant ScanBalances(quality, candidates, LikelyBalances[j..], Best(newQuality, newMatch))
                == ScanBalances(quality, candidates, LikelyBalances, Best(bestQuality, bestMatch))
    {
      var balance := LikelyBalances[j];
      var blue := [candidates[balance.0], candidates[balance.1], candidates[balance.2]];
      var orange := Outside(candidates, blue);
      var q := quality(Map(CandidateKey, blue), Map(CandidateKey, orange));
      if q > newQuality {
        newQuality := q;
        newMatch := Some(Split(blue, orange));
      }
      assert LikelyBalances[j..][1..] == LikelyBalances[j + 1..];
      j := j + 1;
    }
  }

  /** One round of the outer loop of `decide_on_players_2`: `pick_bots`, the candidates with
      their `rank_sys.get` ratings, sorted best first, and the likely balances tried on them. */
  method TryRound(ticketSys: TicketSystem, bots: seq<BotId>, rank: RankingSystem, o: Oracles, round: nat, best: Best)
    returns (next: Result<Best, MatchError>)
    requires SoundSampler(o.sample)
    modifies ticketSys`tickets, rank`ratings
    ensures ticketSys.tickets == WithDefaults(old(ticketSys.tickets), bots, ticketSys.newBotTicketCount)
    ensures var drawn := PickFrom(ticketSys.tickets, bots, round, o.sample);
            && (drawn.Err? ==> next == Err(drawn.error) && rank.ratings == old(rank.ratings))
            && (drawn.Ok? ==> && next == Ok(ScanBalances(o.quality, Ranked(old(rank.ratings), drawn.value), LikelyBalances, best))
                              && rank.ratings == WithDefaults(old(rank.ratings), drawn.value, 0))
  {
    var picked := ticketSys.PickBots(bots, round, o.sample);
    if picked.Err? {
      next := Err(picked.error);
      return;
    }
    var ratings := LookupRatings(rank, picked.value);
    var candidates := SortDesc(Candidates(picked.value, ratings), CandidateKey);
    CandidatesRanked(old(rank.ratings), picked.value, ratings);
    var q, m := TryBalances(o.quality, candidates, best.quality, best.teams);
    next := Ok(Best(q, m));
  }

  /** A round that draws from the ensured balances moves the outer scan one round on; the
      ratings it read differ from the first ones only by added zero ratings. */
  lemma RoundAdvance(tickets: map<BotId, real>, bots: seq<BotId>, before: map<BotId, int>, current: map<BotId, int>,
                     o: Oracles, n: nat, best: Best, next: Best)
    requires forall b :: b in bots ==> b in tickets
    requires SoundSampler(o.sample)
    requires n < Tries
    requires PickFrom(tickets, bots, n, o.sample).Ok?
    requires OnlyZeroesAdded(before, current, bots)
    requires AllValid(LikelyBalances)
    requires next == ScanBalances(o.quality, Ranked(current, PickFrom(tickets, bots, n, o.sample).value), LikelyBalances, best)
    ensures Poolable(tickets, bots)
    ensures var steps := DrawnSteps(tickets, bots, before, o);
            ScanFrom(steps, RoundsFrom(n), best) == ScanFrom(steps, RoundsFrom(n + 1), next)
    ensures OnlyZeroesAdded(before, WithDefaults(current, PickFrom(tickets, bots, n, o.sample).value, 0), bots)
  {
    var picked := PickFrom(tickets, bots, n, o.sample).value;
    RankedOnlyZeroesAdded(before, current, bots, picked);
    assert Ranked(current, picked) == RoundCandidates(tickets, bots, before, o, n);
    assert next == RoundStep(tickets, bots, before, o, n, best);
    ZeroDefaultsAdded(before, current, bots, picked);
    RoundsFromNext(n);
  }

  /** The invariant of the outer loop after `n` rounds: the roster can be drawn from, and the
      scan over the remaining rounds, starting from `best`, ends at the best split of all
      rounds. */
  ghost predicate OnTrack(ensured: map<BotId, real>, bots: seq<BotId>, before: map<BotId, int>, o: Oracles, n: nat, best: Best) {
    && n <= Tries
    && (forall b :: b in bots ==> b in ensured)
    && SoundSampler(o.sample)
    && Poolable(ensured, bots)
    && ScanFrom(DrawnSteps(ensured, bots, before, o), RoundsFrom(n), best) == BestOfRounds(ensured, bots, before, o)
  }

  /** One round of the outer loop on the ensured balances, seen from the scan: numpy refuses
      the draw exactly when the roster cannot be drawn from; otherwise, if the scan over the
      rounds from this one on, starting from `best`, gives the best split of all rounds, so
      does the scan over the later rounds starting from the round's result. */
  method PlayRound(ticketSys: TicketSystem, bots: seq<BotId>, rank: RankingSystem, o: Oracles,
                   ghost ensured: map<BotId, real>, ghost before: map<BotId, int>, round: nat, best: Best)
    returns (next: Result<Best, MatchError>)
    requires SoundSampler(o.sample)
    requires round < Tries
    requires WithDefaults(ticketSys.tickets, bots, ticketSys.newBotTicketCount) == ensured
    requires OnlyZeroesAdded(before, rank.ratings, bots)
    requires round == 0 ==> best == Best(0.0, None)
    requires round > 0 ==> OnTrack(ensured, bots, before, o, round, best)
    modifies ticketSys`tickets, rank`ratings
    ensures ticketSys.tickets == ensured
    ensures next.Err? <==> !Poolable(ensured, bots)
    ensures next.Err? ==> next == Err(InsufficientPool)
    ensures next.Ok? ==> OnTrack(ensured, bots, before, o, round + 1, next.value)
    ensures OnlyZeroesAdded(before, rank.ratings, bots)
  {
    ghost var current := rank.ratings;
    next := TryRound(ticketSys, bots, rank, o, round, best);
    if next.Ok? {
      LikelyBalancesValid();
      RoundAdvance(ensured, bots, before, current, o, round, best, next.value);
    }
  }

  /** The outer loop of `decide_on_players_2`: 400 rounds of drawing six bots, ranking them by
      rating and trying the likely balances on them. The result is the best split over all
      rounds, or numpy's refusal of the first draw. */
  method PlayRounds(ticketSys: TicketSystem, bots: seq<BotId>, rank: RankingSystem, o: Oracles)
    returns (outcome: Result<Best, MatchError>)
    requires SoundSampler(o.sample)
    modifies ticketSys`tickets, rank`ratings
    ensures ticketSys.tickets == WithDefaults(old(ticketSys.tickets), bots, ticketSys.newBotTicketCount)
    ensures var ensured := WithDefaults(old(ticketSys.tickets), bots, ticketSys.newBotTicketCount);
            && (Poolable(ensured, bots) ==> outcome == Ok(BestOfRounds(ensured, bots, old(rank.ratings), o)))
            && (!Poolable(ensured, bots) ==> outcome == Err(InsufficientPool))
    ensures OnlyZeroesAdded(old(rank.ratings), rank.ratings, bots)
  {
    ghost var ensured := WithDefaults(ticketSys.tickets, bots, ticketSys.newBotTicketCount);
    ghost var before := rank.ratings;
    WithDefaultsIdempotent(ticketSys.tickets, bots, ticketSys.newBotTicketCount);
    var best := Best(0.0, None);
    var triesLeft := Tries;
    var round: nat := 0;
    while triesLeft > 0
      invariant 0 <= triesLeft <= Tries && round == Tries - triesLeft
      invariant round == 0 ==> best == Best(0.0, None)
      invariant WithDefaults(ticketSys.tickets, bots, ticketSys.newBotTicketCount) == ensured
      invariant round > 0 ==> ticketSys.tickets == ensured && OnTrack(ensured, bots, before, o, round, best)
      invariant OnlyZeroesAdded(before, rank.ratings, bots)
    {
      triesLeft := triesLeft - 1;
      outcome := PlayRound(ticketSys, bots, rank, o, ensured, before, round, best);
      if outcome.Err? {
        return;
      }
      best := outcome.value;
      round := round + 1;
    }
    assert RoundsFrom(round) == [];
    outcome := Ok(best);
  }

  /** `decide_on_players_2`: the best split of all rounds wins; the chosen bots' tickets are
      reset and every other roster bot's grow. */
  method DecideOnPlayers2(ticketSys: TicketSystem, bots: seq<BotId>, rank: RankingSystem, o: Oracles)
    returns (r: Result<(seq<BotId>, seq<BotId>), MatchError>)
    requires SoundSampler(o.sample)
    modifies ticketSys`tickets, rank`ratings
    ensures var ensured := WithDefaults(old(ticketSys.tickets), bots, ticketSys.newBotTicketCount);
            var found := Decide2(ensured, bots, old(rank.ratings), o);
            && (found.Ok? ==> var blueIds := Map(CandidateId, found.value.blue);
                              var orangeIds := Map(CandidateId, found.value.orange);
                              && r == Ok((blueIds, orangeIds))
                              && ticketSys.tickets == Chosen(ensured, blueIds + orangeIds, bots, ticketSys.ticketIncreaseRate))
            && (found.Err? ==> r == Err(found.error) && ticketSys.tickets == ensured)
    ensures OnlyZeroesAdded(old(rank.ratings), rank.ratings, bots)
  {
    var outcome := PlayRounds(ticketSys, bots, rank, o);
    if outcome.Err? {
      r := Err(outcome.error);
      return;
    }
    var best := outcome.value;
    if best.teams.None? {
      r := Err(NoFairMatch);
      return;
    }
    var blueIds := Map(CandidateId, best.teams.value.blue);
    var orangeIds := Map(CandidateId, best.teams.value.orange);
    ticketSys.Choose(blueIds + orangeIds, bots);
    r := Ok((blueIds, orangeIds));
  }
}
