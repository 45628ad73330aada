/** The ticket fairness ledger of autoleague/match_maker.py (`TicketSystem`). numpy's weighted
    draw is an oracle passed in as a function. */
module Tickets {
  import opened Wrappers
  import opened Bots
  import opened Lists

  /** Bots per match: three a side. */
  const MatchSize: nat := 6

  datatype MatchError =
    | InsufficientPool  // numpy rejected the draw, or the ticket total was zero
    | NoFairMatch       // no draw was good enough

  /** `numpy.random.choice(population, 6, p, replace=False)`: for a round of a search and the
      probabilities, the positions it draws. */
  type Sampler = (nat, seq<real>) -> seq<nat>

  // ---------------------------------------------------------------- sums

  function SumSeq(s: seq<real>): real {
    if s == [] then 0.0 else s[0] + SumSeq(s[1..])
  }

  /** The sum of the balances of `keys`. */
  ghost function SumOver(m: map<BotId, real>, keys: set<BotId>): real
    requires keys <= m.Keys
    decreases keys
  {
    if keys == {} then 0.0 else var k :| k in keys; m[k] + SumOver(m, keys - {k})
  }

  /** The sum does not depend on which key is taken first. */
  lemma {:induction false} SumOverRemove(m: map<BotId, real>, keys: set<BotId>, k: BotId)
    requires keys <= m.Keys && k in keys
    ensures SumOver(m, keys) == m[k] + SumOver(m, keys - {k})
    decreases keys
  {
    var j :| j in keys && SumOver(m, keys) == m[j] + SumOver(m, keys - {j});
    if j != k {
      SumOverRemove(m, keys - {j}, k);
      SumOverRemove(m, keys - {k}, j);
      assert keys - {j} - {k} == keys - {k} - {j};
    }
  }

  lemma {:induction false} SumOverNonNegative(m: map<BotId, real>, keys: set<BotId>)
    requires keys <= m.Keys
    requires forall b :: b in keys ==> m[b] >= 0.0
    ensures SumOver(m, keys) >= 0.0
    decreases keys
  {
    if keys != {} {
      var k :| k in keys;
      SumOverRemove(m, keys, k);
      SumOverNonNegative(m, keys - {k});
    }
  }

  /** Only the balances of `keys` matter. */
  lemma {:induction false} SumOverAgree(m: map<BotId, real>, n: map<BotId, real>, keys: set<BotId>)
    requires keys <= m.Keys && keys <= n.Keys
    requires forall b :: b in keys ==> m[b] == n[b]
    ensures SumOver(m, keys) == SumOver(n, keys)
    decreases keys
  {
    if keys != {} {
      var k :| k in keys;
      SumOverRemove(m, keys, k);
      SumOverRemove(n, keys, k);
      SumOverAgree(m, n, keys - {k});
    }
  }

  /** Setting one balance moves the total by the difference. */
  lemma SumOverSet(m: map<BotId, real>, b: BotId, v: real)
    ensures b in m ==> SumOver(m[b := v], m[b := v].Keys) == SumOver(m, m.Keys) - m[b] + v
    ensures b !in m ==> SumOver(m[b := v], m[b := v].Keys) == SumOver(m, m.Keys) + v
  {
    var n := m[b := v];
    SumOverRemove(n, n.Keys, b);
    assert n.Keys - {b} == m.Keys - {b};
    SumOverAgree(m, n, m.Keys - {b});
    if b in m {
      SumOverRemove(m, m.Keys, b);
    } else {
      assert n.Keys - {b} == m.Keys;
    }
  }

  // ---------------------------------------------------------------- choose

  function Pow(x: real, n: nat): real {
    if n == 0 then 1.0 else x * Pow(x, n - 1)
  }

  /** `choose` as a value: walks `all` in order, resetting a chosen bot to 1.0 and multiplying any
      other bot's balance by `rate`. */
  function Chosen(m: map<BotId, real>, chosen: seq<BotId>, all: seq<BotId>, rate: real): (r: map<BotId, real>)
    requires forall b :: b in all && b !in chosen ==> b in m
    decreases |all|
  {
    if all == [] then m
    else
      var b := all[0];
      Chosen(ChooseOne(m, chosen, b, rate), chosen, all[1..], rate)
  }

  /** One step of `choose`. */
  function ChooseOne(m: map<BotId, real>, chosen: seq<BotId>, b: BotId, rate: real): map<BotId, real>
    requires b in chosen || b in m
  {
    if b in chosen then m[b := 1.0] else m[b := Grow(m[b], rate)]
  }

  /** A balance that was not chosen grows by the increase rate. */
  function Grow(balance: real, rate: real): real {
    balance * rate
  }

  /** The effect of `choose` on one bot: a listed chosen bot ends at exactly 1.0, a listed other
      bot is multiplied by `rate` once per listing, and an unlisted bot is untouched. */
  lemma ChosenEffect(m: map<BotId, real>, chosen: seq<BotId>, all: seq<BotId>, rate: real, b: BotId)
    requires forall x :: x in all && x !in chosen ==> x in m
    ensures var r := Chosen(m, chosen, all, rate);
            && (b in r <==> b in m || (b in all && b in chosen))
            && (b in all && b in chosen ==> r[b] == 1.0)
            && (b in all && b !in chosen ==> r[b] == m[b] * Pow(rate, Count(all, b)))
            && (b !in all && b in m ==> r[b] == m[b])
  {
    ChosenReset(m, chosen, all, rate, b);
    if b in all && b !in chosen {
      ChosenGrowth(m, chosen, all, rate, b);
    }
  }

  /** Which bots `choose` leaves a balance, the chosen ones' reset and the unlisted ones'. */
  lemma {:induction false} ChosenReset(m: map<BotId, real>, chosen: seq<BotId>, all: seq<BotId>, rate: real, b: BotId)
    requires forall x :: x in all && x !in chosen ==> x in m
    ensures var r := Chosen(m, chosen, all, rate);
            && (b in r <==> b in m || (b in all && b in chosen))
            && (b in all && b in chosen ==> r[b] == 1.0)
            && (b !in all && b in m ==> r[b] == m[b])
    decreases |all|
  {
    if all != [] {
      var x := all[0];
      var next := ChooseOne(m, chosen, x, rate);
      assert Chosen(m, chosen, all, rate) == Chosen(next, chosen, all[1..], rate);
      ChosenReset(next, chosen, all[1..], rate, b);
      assert all == [x] + all[1..];
    }
  }

  /** A listed bot that is not chosen grows once per listing. */
  lemma {:induction false} ChosenGrowth(m: map<BotId, real>, chosen: seq<BotId>, all: seq<BotId>, rate: real, b: BotId)
    requires forall x :: x in all && x !in chosen ==> x in m
    requires b in m && b !in chosen
    ensures var r := Chosen(m, chosen, all, rate); b in r && r[b] == m[b] * Pow(rate, Count(all, b))
    decreases |all|
  {
    if all != [] {
      var x := all[0];
      var next := ChooseOne(m, chosen, x, rate);
      assert Chosen(m, chosen, all, rate) == Chosen(next, chosen, all[1..], rate);
      ChosenGrowth(next, chosen, all[1..], rate, b);
      var c := Count(all[1..], b);
      if b == x {
        Regroup(m[b], rate, Pow(rate, c));
      }
    }
  }

  lemma Regroup(a: real, b: real, c: real)
    ensures (a * b) * c == a * (b * c)
  {
  }

  /** With every bot listed once, the other listed bots' balances are multiplied by `rate` exactly. */
  lemma ChosenScalesOnce(m: map<BotId, real>, chosen: seq<BotId>, all: seq<BotId>, rate: real, b: BotId)
    requires forall x :: x in all && x !in chosen ==> x in m
    requires NoDup(all)
    requires b in all && b !in chosen
    ensures var r := Chosen(m, chosen, all, rate); b in r && r[b] == m[b] * rate
  {
    ChosenEffect(m, chosen, all, rate, b);
    NoDupCount(all, b);
    assert Pow(rate, 1) == rate;
  }

  /** With non-negative balances and rate, `choose` keeps every balance non-negative. */
  lemma {:induction false} ChosenNonNegative(m: map<BotId, real>, chosen: seq<BotId>, all: seq<BotId>, rate: real, b: BotId)
    requires forall x :: x in all && x !in chosen ==> x in m
    requires rate >= 0.0
    requires forall x :: x in m ==> m[x] >= 0.0
    ensures var r := Chosen(m, chosen, all, rate); b in r ==> r[b] >= 0.0
    decreases |all|
  {
    if all != [] {
      var h := all[0];
      if h !in chosen {
        assert m[h] * rate >= 0.0;
      }
      var next := ChooseOne(m, chosen, h, rate);
      assert forall y :: y in next ==> next[y] >= 0.0;
      assert Chosen(m, chosen, all, rate) == Chosen(next, chosen, all[1..], rate);
      ChosenNonNegative(next, chosen, all[1..], rate, b);
    }
  }

  // ---------------------------------------------------------------- drawing

  /** The balances of `bots`, in list order. */
  function Weights(m: map<BotId, real>, bots: seq<BotId>): (w: seq<real>)
    requires forall b :: b in bots ==> b in m
    ensures |w| == |bots| && forall i :: 0 <= i < |bots| ==> w[i] == m[bots[i]]
  {
    seq(|bots|, i requires 0 <= i < |bots| => m[bots[i]])
  }

  /** The probabilities handed to numpy: each balance divided by their total. */
  function Normalise(w: seq<real>, total: real): (p: seq<real>)
    requires total != 0.0
    ensures |p| == |w| && forall i :: 0 <= i < |w| ==> p[i] == w[i] / total
  {
    seq(|w|, i requires 0 <= i < |w| => w[i] / total)
  }

  function CountPositive(p: seq<real>): nat {
    if p == [] then 0 else (if p[0] > 0.0 then 1 else 0) + CountPositive(p[1..])
  }

  /** numpy draws six without replacement when no probability is negative and at least six are
      positive; otherwise it raises `ValueError`. */
  predicate Drawable(p: seq<real>) {
    (forall i :: 0 <= i < |p| ==> p[i] >= 0.0) && CountPositive(p) >= MatchSize
  }

  /** Six distinct positions of the population, each with positive probability. */
  predicate IsDraw(p: seq<real>, positions: seq<nat>) {
    && |positions| == MatchSize
    && (forall k :: 0 <= k < MatchSize ==> positions[k] < |p| && p[positions[k]] > 0.0)
    && (forall k, l :: 0 <= k < l < MatchSize ==> positions[k] != positions[l])
  }

  /** What numpy promises: whenever it does not raise, it returns a proper draw. */
  ghost predicate SoundSampler(sample: Sampler) {
    forall round: nat, p: seq<real> :: Drawable(p) ==> IsDraw(p, sample(round, p))
  }

  /** `pick_bots` can draw from `bots`: the ticket total is not zero and numpy accepts the
      probabilities. */
  predicate Poolable(m: map<BotId, real>, bots: seq<BotId>)
    requires forall b :: b in bots ==> b in m
  {
    var w := Weights(m, bots);
    SumSeq(w) != 0.0 && Drawable(Normalise(w, SumSeq(w)))
  }

  /** The result of `pick_bots` once `bots` are ensured: the draw, or the error numpy (or the
      division by a zero total) raises. */
  function PickFrom(m: map<BotId, real>, bots: seq<BotId>, round: nat, sample: Sampler): (r: Result<seq<BotId>, MatchError>)
    requires forall b :: b in bots ==> b in m
    requires SoundSampler(sample)
    ensures r.Ok? <==> Poolable(m, bots)
    ensures r.Ok? ==> |r.value| == MatchSize && forall b :: b in r.value ==> b in bots
    ensures r.Err? ==> r.error == InsufficientPool
  {
    var w := Weights(m, bots);
    var total := SumSeq(w);
    if total == 0.0 then Err(InsufficientPool)
    else
      var p := Normalise(w, total);
      if !Drawable(p) then Err(InsufficientPool)
      else
        var positions := sample(round, p);
        assert IsDraw(p, positions);
        Ok(seq(MatchSize, k requires 0 <= k < MatchSize => bots[positions[k]]))
  }

  /** From a roster without repeats, `pick_bots` draws six different bots. */
  lemma PickFromDraw(m: map<BotId, real>, bots: seq<BotId>, round: nat, sample: Sampler)
    requires forall b :: b in bots ==> b in m
    requires SoundSampler(sample)
    requires NoDup(bots)
    requires Poolable(m, bots)
    ensures NoDup(PickFrom(m, bots, round, sample).value)
  {
    var w := Weights(m, bots);
    var p := Normalise(w, SumSeq(w));
    var positions := sample(round, p);
    assert IsDraw(p, positions);
    var picked := PickFrom(m, bots, round, sample).value;
    forall k, l | 0 <= k < l < |picked| ensures picked[k] != picked[l] {
      assert picked[k] == bots[positions[k]] && picked[l] == bots[positions[l]];
    }
  }

  // ---------------------------------------------------------------- the ledger

  class TicketSystem {
    var tickets: map<BotId, real>
    var newBotTicketCount: real
    var ticketIncreaseRate: real

    constructor ()
      ensures tickets == map[] && newBotTicketCount == 4.0 && ticketIncreaseRate == 2.0
    {
      tickets := map[];
      newBotTicketCount := 4.0;
      ticketIncreaseRate := 2.0;
    }

    /** `ensure`: every listed bot without tickets gets `newBotTicketCount`; nothing else changes. */
    method Ensure(bots: seq<BotId>)
      modifies this`tickets
      ensures tickets == WithDefaults(old(tickets), bots, newBotTicketCount)
    {
      var i := 0;
      while i < |bots|
        invariant 0 <= i <= |bots|
        invariant WithDefaults(tickets, bots[i..], newBotTicketCount) == WithDefaults(old(tickets), bots, newBotTicketCount)
      {
        assert bots[i..][1..] == bots[i + 1..];
        if bots[i] !in tickets {
          tickets := tickets[bots[i] := newBotTicketCount];
        }
        i := i + 1;
      }
    }

    /** `get_ensured`: the stored balance, or the new-bot count after inserting it. */
    method GetEnsured(bot: BotId) returns (count: real)
      modifies this`tickets
      ensures count == (if bot in old(tickets) then old(tickets)[bot] else newBotTicketCount)
      ensures tickets == WithDefaults(old(tickets), [bot], newBotTicketCount)
      ensures bot in tickets && count == tickets[bot]
    {
      if bot !in tickets {
        tickets := tickets[bot := newBotTicketCount];
      }
      count := tickets[bot];
    }

    /** `get`: the balance, `None` exactly for a bot without tickets; nothing changes. */
    function Get(bot: BotId): (r: Option<real>)
      reads this
      ensures r.None? <==> bot !in tickets
      ensures r.Some? ==> r.value == tickets[bot]
    {
      if bot in tickets then Some(tickets[bot]) else None
    }

    /** `set`: only the given bot's balance changes. */
    method Set(bot: BotId, count: real)
      modifies this`tickets
      ensures tickets == old(tickets)[bot := count]
    {
      tickets := tickets[bot := count];
    }

    /** `total`: the sum of all stored balances. */
    method Total() returns (total: real)
      ensures total == SumOver(tickets, tickets.Keys)
    {
      total := 0.0;
      var left := tickets.Keys;
      while left != {}
        invariant left <= tickets.Keys
        invariant total + SumOver(tickets, left) == SumOver(tickets, tickets.Keys)
        decreases left
      {
        var b :| b in left;
        SumOverRemove(tickets, left, b);
        total := total + tickets[b];
        left := left - {b};
      }
    }

    /** `pick_bots`: ensures every roster bot has tickets, reads their balances and lets numpy
        draw six of them in proportion. */
    method PickBots(bots: seq<BotId>, round: nat, sample: Sampler) returns (picked: Result<seq<BotId>, MatchError>)
      requires SoundSampler(sample)
      modifies this`tickets
      ensures tickets == WithDefaults(old(tickets), bots, newBotTicketCount)
      ensures picked == PickFrom(tickets, bots, round, sample)
    {
      Ensure(bots);
      ghost var ensured := tickets;
      var botTickets: seq<real> := [];
      var i := 0;
      while i < |bots|
        invariant 0 <= i <= |bots|
        invariant tickets == ensured
        invariant botTickets == Weights(tickets, bots[..i])
      {
        var count := GetEnsured(bots[i]);
        botTickets := botTickets + [count];
        i := i + 1;
      }
      assert bots[..i] == bots;
      var total := SumSeq(botTickets);
      if total == 0.0 {
        picked := Err(InsufficientPool);
        return;
      }
      var prop := Normalise(botTickets, total);
      if !Drawable(prop) {
        picked := Err(InsufficientPool);
        return;
      }
      var positions := sample(round, prop);
      picked := Ok(seq(MatchSize, k requires 0 <= k < MatchSize => bots[positions[k]]));
    }

    /** `choose`: listed chosen bots reset to 1.0, other listed bots grow by the increase rate.
        The source multiplies the stored balance in place, so each listed bot that is not chosen
        must already have tickets (otherwise `KeyError`). */
    method Choose(chosen: seq<BotId>, all: seq<BotId>)
      requires forall b :: b in all && b !in chosen ==> b in tickets
      modifies this`tickets
      ensures tickets == Chosen(old(tickets), chosen, all, ticketIncreaseRate)
    {
      var i := 0;
      while i < |all|
        invariant 0 <= i <= |all|
        invariant forall b :: b in all[i..] && b !in chosen ==> b in tickets
        invariant Chosen(tickets, chosen, all[i..], ticketIncreaseRate) == Chosen(old(tickets), chosen, all, ticketIncreaseRate)
      {
        assert all[i..][1..] == all[i + 1..];
        var bot := all[i];
        assert Chosen(tickets, chosen, all[i..], ticketIncreaseRate)
            == Chosen(ChooseOne(tickets, chosen, bot, ticketIncreaseRate), chosen, all[i + 1..], ticketIncreaseRate);
        if bot in chosen {
          tickets := tickets[bot := 1.0];
        } else {
          tickets := tickets[bot := Grow(tickets[bot], ticketIncreaseRate)];
        }
        i := i + 1;
      }
    }
  }
}
