/** The bubble-sort ladder of autoleague/bubble_ladder.py: a list of bots, a cursor and a
    direction. Each match pits the bot at the cursor against its neighbour in the current
    direction; the winner of a match moves towards the top, and the cursor walks the ladder
    from end to end. Python's negative list indices are modelled, and an `IndexError` is an
    outcome rather than a precondition. */
module BubbleLadders {
  import opened Wrappers
  import opened Bots
  import opened Lists
  import opened Matches
  import SnapshotLog

  /** The three fields of a `BubbleLadder`, as a value. */
  datatype LadderState = LadderState(ladder: seq<BotId>, cur: int, direction: int)

  /** The dataclass defaults: an empty ladder, `cur = 0`, `direction = -1`. */
  const Defaults: LadderState := LadderState([], 0, -1)

  /** The states the ladder keeps from its defaults on: the direction is a unit step and the
      cursor points into the ladder, or (on a ladder too short to play, or after starting from
      the bottom of an empty one) is 0 or -1. */
  ghost predicate Valid(s: LadderState) {
    && (s.direction == -1 || s.direction == 1)
    && -1 <= s.cur
    && (s.cur < |s.ladder| || s.cur <= 0)
  }

  /** The state right after a proposed match: both bots of the match are at positions Python
      accepts, the partner's one counted from the front. */
  ghost predicate Paired(s: LadderState) {
    && 2 <= |s.ladder|
    && PyIndexOk(|s.ladder|, s.cur)
    && 0 <= s.cur + s.direction < |s.ladder|
  }

  /** A new ladder starts in a valid state. */
  lemma DefaultsValid()
    ensures Valid(Defaults)
  {
  }

  // ---------------------------------------------------------------- next_match

  /** `set(ladder)`. */
  function Members(ladder: seq<BotId>): (r: set<BotId>)
    ensures forall b :: b in r <==> b in ladder
  {
    set b | b in ladder
  }

  /** The bots of `bots` not in `known`, in order: what the loop of `next_match` appends. */
  function Unknown(known: set<BotId>, bots: seq<BotId>): (r: seq<BotId>)
    ensures forall b :: b in r <==> b in bots && b !in known
    ensures |r| <= |bots|
    decreases |bots|
  {
    if bots == [] then []
    else
      var last := bots[|bots| - 1];
      var front := bots[..|bots| - 1];
      assert bots == front + [last];
      Unknown(known, front) + (if last in known then [] else [last])
  }

  /** Without repeats in `bots`, the appended bots have no repeats. */
  lemma {:induction false} UnknownNoDup(known: set<BotId>, bots: seq<BotId>)
    requires NoDup(bots)
    ensures NoDup(Unknown(known, bots))
    decreases |bots|
  {
    if bots != [] {
      var last := bots[|bots| - 1];
      var front := bots[..|bots| - 1];
      assert NoDup(front);
      assert last !in front;
      UnknownNoDup(known, front);
    }
  }

  /** `Unknown` keeps the roster's order: the bots appended for a roster in two parts are those
      appended for the first part followed by those for the second. */
  lemma {:induction false} UnknownConcat(known: set<BotId>, a: seq<BotId>, b: seq<BotId>)
    ensures Unknown(known, a + b) == Unknown(known, a) + Unknown(known, b)
    decreases |b|
  {
    if b == [] {
      assert a + b == a;
    } else {
      var last := b[|b| - 1];
      var front := b[..|b| - 1];
      assert (a + b)[..|a + b| - 1] == a + front;
      assert (a + b)[|a + b| - 1] == last;
      UnknownConcat(known, a, front);
    }
  }

  /** With `UnknownConcat`, these fix `Unknown` as the order-keeping filter: no bots append
      nothing, and one bot is appended exactly when it is not known. */
  lemma UnknownSingle(known: set<BotId>, x: BotId)
    ensures Unknown(known, []) == []
    ensures Unknown(known, [x]) == (if x in known then [] else [x])
  {
    assert [x][..0] == [];
  }

  /** The direction after the check at the ends: it turns up at the bottom end going down and
      down at the top end going up. */
  function Turned(len: int, cur: int, direction: int): int {
    if cur <= 0 && direction == -1 then 1
    else if cur >= len - 1 && direction == 1 then -1
    else direction
  }

  /** What `next_match` returns: nothing for a ladder too short to play, a match, or the
      `IndexError` of a cursor outside the ladder. */
  datatype Proposal = TooShort | Proposed(details: MatchDetails) | IndexError

  /** `next_match` on values: the new state and what it returns. */
  function NextMatchOf(s: LadderState, bots: seq<BotId>): (LadderState, Proposal) {
    var ladder := s.ladder + Unknown(Members(s.ladder), bots);
    if |ladder| <= 1 then (LadderState(ladder, s.cur, s.direction), TooShort)
    else
      var direction := Turned(|ladder|, s.cur, s.direction);
      var t := LadderState(ladder, s.cur, direction);
      if !PyIndexOk(|ladder|, s.cur) || !PyIndexOk(|ladder|, s.cur + direction) then (t, IndexError)
      else
        var blue := ladder[PyPos(|ladder|, s.cur)];
        var orange := ladder[PyPos(|ladder|, s.cur + direction)];
        (t, Proposed(MatchDetails([blue, blue], [orange, orange])))
  }

  /** `next_match` only appends: the old ladder is a prefix of the new one, every bot passed
      in is on the new ladder, nothing else is, and the cursor does not move. */
  lemma NextMatchAppends(s: LadderState, bots: seq<BotId>)
    ensures var t := NextMatchOf(s, bots).0;
            && t.ladder[..|s.ladder|] == s.ladder
            && t.cur == s.cur
            && (forall b :: b in t.ladder <==> b in s.ladder || b in bots)
  {
    var t := NextMatchOf(s, bots).0;
    var added := Unknown(Members(s.ladder), bots);
    assert t.ladder == s.ladder + added;
    assert t.ladder[..|s.ladder|] == s.ladder;
    forall b ensures b in t.ladder <==> b in s.ladder || b in bots {
      assert b in t.ladder <==> b in s.ladder || b in added;
    }
  }

  /** A ladder without repeats keeps none when a roster without repeats is added. */
  lemma NextMatchNoDup(s: LadderState, bots: seq<BotId>)
    requires NoDup(s.ladder) && NoDup(bots)
    ensures NoDup(NextMatchOf(s, bots).0.ladder)
  {
    var added := Unknown(Members(s.ladder), bots);
    UnknownNoDup(Members(s.ladder), bots);
    var t := s.ladder + added;
    forall i, j | 0 <= i < j < |t| ensures t[i] != t[j] {
      if j >= |s.ladder| && i < |s.ladder| {
        assert t[j] == added[j - |s.ladder|];
        assert t[i] in s.ladder;
      } else if i >= |s.ladder| {
        assert t[i] == added[i - |s.ladder|] && t[j] == added[j - |s.ladder|];
      }
    }
  }

  /** `next_match` proposes nothing exactly when the ladder, new bots included, has at most one
      bot; the direction then stays as it was. */
  lemma NextMatchTooShort(s: LadderState, bots: seq<BotId>)
    ensures var (t, p) := NextMatchOf(s, bots);
            && (p == TooShort <==> |t.ladder| <= 1)
            && (p == TooShort ==> t.direction == s.direction)
  {
  }

  /** From a valid state and with two bots or more, `next_match` proposes a match and never
      fails: the turned direction makes the partner's position valid, blue is two copies of the
      bot at the cursor and orange two copies of its partner. */
  lemma NextMatchProposes(s: LadderState, bots: seq<BotId>)
    requires Valid(s)
    ensures var (t, p) := NextMatchOf(s, bots);
            |t.ladder| >= 2 ==>
              && Paired(t)
              && p.Proposed?
              && p.details.blue == [t.ladder[PyPos(|t.ladder|, t.cur)], t.ladder[PyPos(|t.ladder|, t.cur)]]
              && p.details.orange == [t.ladder[t.cur + t.direction], t.ladder[t.cur + t.direction]]
  {
  }

  /** `next_match` keeps the ladder valid. */
  lemma NextMatchValid(s: LadderState, bots: seq<BotId>)
    requires Valid(s)
    ensures Valid(NextMatchOf(s, bots).0)
  {
  }

  // ---------------------------------------------------------------- update

  /** Whether `update` swaps the pair: the partner scored more, in the direction of travel. */
  predicate SwapsFor(direction: int, result: MatchResult) {
    direction * result.blueGoals < direction * result.orangeGoals
  }

  /** `ladder[a], ladder[b] = ladder[b], ladder[a]`: both are read first, then `a` and then `b`
      are written. */
  function Swapped(ladder: seq<BotId>, a: nat, b: nat): (r: seq<BotId>)
    requires a < |ladder| && b < |ladder|
    ensures |r| == |ladder|
  {
    ladder[a := ladder[b]][b := ladder[a]]
  }

  /** Swapping two positions rearranges the ladder and changes no other position. */
  lemma SwappedPermutes(ladder: seq<BotId>, a: nat, b: nat)
    requires a < |ladder| && b < |ladder|
    ensures multiset(Swapped(ladder, a, b)) == multiset(ladder)
    ensures Swapped(ladder, a, b)[a] == ladder[b] && Swapped(ladder, a, b)[b] == ladder[a]
    ensures forall k :: 0 <= k < |ladder| && k != a && k != b ==> Swapped(ladder, a, b)[k] == ladder[k]
  {
    var mid := ladder[a := ladder[b]];
    assert multiset(mid) == multiset(ladder) - multiset{ladder[a]} + multiset{ladder[b]};
    assert multiset(mid[b := ladder[a]]) == multiset(mid) - multiset{mid[b]} + multiset{ladder[a]};
  }

  /** `update` on values: the new state and whether it succeeded. A swap at positions Python
      rejects raises `IndexError` before anything changes; otherwise the cursor moves one step. */
  function Updated(s: LadderState, result: MatchResult): (LadderState, bool) {
    if !SwapsFor(s.direction, result) then (s.(cur := s.cur + s.direction), true)
    else if !PyIndexOk(|s.ladder|, s.cur) || !PyIndexOk(|s.ladder|, s.cur + s.direction) then (s, false)
    else
      var ladder := Swapped(s.ladder, PyPos(|s.ladder|, s.cur), PyPos(|s.ladder|, s.cur + s.direction));
      (LadderState(ladder, s.cur + s.direction, s.direction), true)
  }

  /** `update` rearranges the ladder, and changes at most the two positions of the match. A
      successful update moves the cursor one step in the direction; the `IndexError` outcome
      leaves the state as it was. */
  lemma UpdatePermutes(s: LadderState, result: MatchResult)
    ensures var (t, ok) := Updated(s, result);
            && (ok ==> t.cur == s.cur + s.direction)
            && (!ok ==> t == s)
    ensures var t := Updated(s, result).0;
            && multiset(t.ladder) == multiset(s.ladder)
            && t.direction == s.direction
            && forall k :: 0 <= k < |s.ladder| && !(PyIndexOk(|s.ladder|, s.cur) && k == PyPos(|s.ladder|, s.cur))
                             && !(PyIndexOk(|s.ladder|, s.cur + s.direction) && k == PyPos(|s.ladder|, s.cur + s.direction))
                           ==> t.ladder[k] == s.ladder[k]
  {
    if SwapsFor(s.direction, result) && PyIndexOk(|s.ladder|, s.cur) && PyIndexOk(|s.ladder|, s.cur + s.direction) {
      SwappedPermutes(s.ladder, PyPos(|s.ladder|, s.cur), PyPos(|s.ladder|, s.cur + s.direction));
    }
  }

  /** A draw never swaps: the ladder stays and the cursor moves on. */
  lemma DrawNeverSwaps(s: LadderState, result: MatchResult)
    requires result.blueGoals == result.orangeGoals
    ensures Updated(s, result) == (s.(cur := s.cur + s.direction), true)
  {
  }

  /** After a proposed match and a decided game, the winner ends at the smaller of the two
      positions and the loser at the larger: the ladder's top is position 0. */
  lemma WinnerMovesUp(s: LadderState, result: MatchResult)
    requires Paired(s) && 0 <= s.cur && (s.direction == -1 || s.direction == 1)
    requires result.blueGoals != result.orangeGoals
    ensures var (t, ok) := Updated(s, result);
            var blue, orange := s.ladder[s.cur], s.ladder[s.cur + s.direction];
            var winner := if result.blueGoals > result.orangeGoals then blue else orange;
            var loser := if result.blueGoals > result.orangeGoals then orange else blue;
            var top := if s.direction == 1 then s.cur else s.cur - 1;
            && ok
            && t.ladder[top] == winner
            && t.ladder[top + 1] == loser
  {
    var a, b := s.cur, s.cur + s.direction;
    assert PyPos(|s.ladder|, a) == a && PyPos(|s.ladder|, b) == b;
    if SwapsFor(s.direction, result) {
      SwappedPermutes(s.ladder, a, b);
    }
  }

  /** After a proposed match, `update` leaves the cursor inside the ladder. */
  lemma UpdateAfterProposal(s: LadderState, result: MatchResult)
    requires Paired(s) && (s.direction == -1 || s.direction == 1)
    ensures var (t, ok) := Updated(s, result);
            ok && 0 <= t.cur < |t.ladder| && Valid(t)
  {
  }

  /** A full turn of the league on a valid ladder of two bots or more (a proposed match, then
      its result) keeps the ladder valid, with the cursor inside it, and keeps its bots. */
  lemma MatchThenUpdate(s: LadderState, bots: seq<BotId>, result: MatchResult)
    requires Valid(s)
    requires |NextMatchOf(s, bots).0.ladder| >= 2
    ensures var t := NextMatchOf(s, bots).0;
            var (u, ok) := Updated(t, result);
            && NextMatchOf(s, bots).1.Proposed?
            && ok && Valid(u) && 0 <= u.cur < |u.ladder|
            && multiset(u.ladder) == multiset(t.ladder)
  {
    var t := NextMatchOf(s, bots).0;
    NextMatchProposes(s, bots);
    NextMatchValid(s, bots);
    UpdateAfterProposal(t, result);
    UpdatePermutes(t, result);
  }

  // ---------------------------------------------------------------- start_from_bottom

  /** `start_from_bottom`: the cursor at the last position, heading up. */
  function FromBottom(s: LadderState): LadderState {
    LadderState(s.ladder, |s.ladder| - 1, -1)
  }

  /** Starting from the bottom gives a valid state whatever the state before; the next match
      pairs the last two bots. */
  lemma FromBottomValid(s: LadderState)
    ensures Valid(FromBottom(s))
    ensures |s.ladder| >= 2 ==>
              NextMatchOf(FromBottom(s), []).1
              == Proposed(MatchDetails([s.ladder[|s.ladder| - 1], s.ladder[|s.ladder| - 1]],
                                       [s.ladder[|s.ladder| - 2], s.ladder[|s.ladder| - 2]]))
  {
    assert s.ladder + Unknown(Members(s.ladder), []) == s.ladder;
  }

  /** After `start_from_bottom` on an empty ladder the cursor is -1. A match between two new bots
      then turns the direction up and pairs the last bot (blue) with the first (orange), and when
      orange wins the swap puts the winner at the bottom of the ladder. */
  lemma WinnerMovesDownFromEmptyBottom(x: BotId, y: BotId)
    requires x != y
    ensures FromBottom(Defaults) == LadderState([], -1, -1)
    ensures NextMatchOf(FromBottom(Defaults), [x, y])
         == (LadderState([x, y], -1, 1), Proposed(MatchDetails([y, y], [x, x])))
    ensures Updated(LadderState([x, y], -1, 1), MatchResult(0, 1)) == (LadderState([y, x], 0, 1), true)
  {
    EmptyBottomProposes(x, y);
    EmptyBottomSwaps(x, y);
  }

  /** The match `next_match` proposes for two new bots after starting from the bottom of an
      empty ladder. */
  lemma EmptyBottomProposes(x: BotId, y: BotId)
    ensures NextMatchOf(LadderState([], -1, -1), [x, y])
         == (LadderState([x, y], -1, 1), Proposed(MatchDetails([y, y], [x, x])))
  {
    var s := LadderState([], -1, -1);
    assert Members(s.ladder) == {};
    UnknownTwoNew(x, y);
    assert s.ladder + Unknown({}, [x, y]) == [x, y];
  }

  /** Orange winning that match swaps the two bots. */
  lemma EmptyBottomSwaps(x: BotId, y: BotId)
    ensures Updated(LadderState([x, y], -1, 1), MatchResult(0, 1)) == (LadderState([y, x], 0, 1), true)
  {
    assert Swapped([x, y], 1, 0) == [y, x];
  }

  /** Two new bots are appended in roster order. */
  lemma UnknownTwoNew(x: BotId, y: BotId)
    ensures Unknown({}, [x, y]) == [x, y]
  {
    assert [x, y][..1] == [x];
    assert [x][..0] == [];
    assert Unknown({}, [x]) == [x];
  }

  /** The ladder the league keeps between matches. */
  class BubbleLadder {
    var ladder: seq<BotId>
    var cur: int
    var direction: int

    function State(): LadderState
      reads this
    {
      LadderState(ladder, cur, direction)
    }

    /** `BubbleLadder()`: the dataclass defaults. */
    constructor ()
      ensures State() == Defaults
    {
      ladder := [];
      cur := 0;
      direction := -1;
    }

    /** `next_match`: appends the bots not on the ladder yet, turns at the ends and proposes
        the bot at the cursor against its partner, two copies of each. */
    method NextMatch(bots: seq<BotId>) returns (r: Proposal)
      modifies this
      ensures (State(), r) == NextMatchOf(old(State()), bots)
    {
      AddUnknown(bots);
      if |ladder| <= 1 {
        return TooShort;
      }
      if cur <= 0 && direction == -1 {
        direction := 1;
      } else if cur >= |ladder| - 1 && direction == 1 {
        direction := -1;
      }
      if !PyIndexOk(|ladder|, cur) || !PyIndexOk(|ladder|, cur + direction) {
        return IndexError;
      }
      var blue := ladder[PyPos(|ladder|, cur)];
      var orange := ladder[PyPos(|ladder|, cur + direction)];
      r := Proposed(MatchDetails([blue, blue], [orange, orange]));
    }

    /** The loop of `next_match`: every bot not on the ladder before the loop is appended. */
    method AddUnknown(bots: seq<BotId>)
      modifies this`ladder
      ensures ladder == old(ladder) + Unknown(Members(old(ladder)), bots)
    {
      var known := Members(ladder);
      var i := 0;
      while i < |bots|
        invariant 0 <= i <= |bots|
        invariant ladder == old(ladder) + Unknown(known, bots[..i])
      {
        assert bots[..i + 1][..i] == bots[..i];
        if bots[i] !in known {
          ladder := ladder + [bots[i]];
        }
        i := i + 1;
      }
      assert bots[..i] == bots;
    }

    /** `update`: swaps the pair when the partner won in the direction of travel, then moves
        the cursor one step; `false` is the `IndexError` of a swap outside the ladder. */
    method Update(result: MatchResult) returns (ok: bool)
      modifies this
      ensures (State(), ok) == Updated(old(State()), result)
    {
      if direction * result.blueGoals < direction * result.orangeGoals {
        if !PyIndexOk(|ladder|, cur) || !PyIndexOk(|ladder|, cur + direction) {
          return false;
        }
        var a := PyPos(|ladder|, cur);
        var b := PyPos(|ladder|, cur + direction);
        var atB, atA := ladder[b], ladder[a];
        ladder := ladder[a := atB];
        ladder := ladder[b := atA];
      }
      cur := cur + direction;
      ok := true;
    }

    /** `start_from_bottom`. */
    method StartFromBottom()
      modifies this
      ensures State() == FromBottom(old(State()))
    {
      cur := |ladder| - 1;
      direction := -1;
    }
  }

  // ---------------------------------------------------------------- JSON

  /** A JSON value as `json` reads and writes it; numbers are the integers the ladder uses. */
  datatype Json = JNull | JBool(b: bool) | JNum(n: int) | JStr(s: string) | JArr(items: seq<Json>) | JObj(fields: map<string, Json>)

  /** A JSON object: a dictionary from keys to values. */
  type JsonObject = map<string, Json>

  /** The key marking an encoded ladder. */
  const LadderTag: string := "__BubbleLadder__"

  /** Python's truth value of a decoded value. */
  predicate Truthy(j: Json) {
    match j
    case JNull => false
    case JBool(b) => b
    case JNum(n) => n != 0
    case JStr(s) => s != []
    case JArr(items) => items != []
    case JObj(fields) => fields != map[]
  }

  function BotIdJson(b: BotId): Json {
    JStr(b)
  }

  /** `BubbleLadderEncoder.default`: the ladder's fields, plus the tag set to `true`. */
  function Encode(s: LadderState): (obj: JsonObject)
    ensures obj.Keys == {"ladder", "cur", "direction", LadderTag}
  {
    map["ladder" := JArr(Map(BotIdJson, s.ladder)), "cur" := JNum(s.cur), "direction" := JNum(s.direction), LadderTag := JBool(true)]
  }

  /** What `as_bubble_ladder` returns: a `BubbleLadder` whose attribute dictionary is the one
      given, or the decoded object itself. */
  datatype Decoded = LadderObject(attributes: JsonObject) | PlainObject(obj: JsonObject)

  /** `as_bubble_ladder`: an object whose tag is truthy becomes a ladder with every other key as
      an attribute; any other object is returned as it is. */
  function Decode(obj: JsonObject): Decoded {
    if LadderTag in obj && Truthy(obj[LadderTag]) then LadderObject(obj - {LadderTag})
    else PlainObject(obj)
  }

  /** An object is returned unchanged exactly when its tag is missing or falsy; a tagged one
      keeps every other key, with its value, and loses the tag. */
  lemma DecodeTagHandling(obj: JsonObject)
    ensures Decode(obj) == PlainObject(obj) <==> LadderTag !in obj || !Truthy(obj[LadderTag])
    ensures Decode(obj).LadderObject? ==>
              && Decode(obj).attributes.Keys == obj.Keys - {LadderTag}
              && forall k :: k in Decode(obj).attributes ==> Decode(obj).attributes[k] == obj[k]
  {
  }

  /** The ladder's bot ids from a list of JSON strings. */
  function Strings(items: seq<Json>): (r: Option<seq<string>>)
    ensures r.Some? ==> |r.value| == |items|
  {
    if items == [] then Some([])
    else match (items[0], Strings(items[1..]))
      case (JStr(s), Some(rest)) => Some([s] + rest)
      case _ => None
  }

  lemma {:induction false} StringsOfBotIds(ladder: seq<BotId>)
    ensures Strings(Map(BotIdJson, ladder)) == Some(ladder)
    decreases |ladder|
  {
    if ladder != [] {
      assert Map(BotIdJson, ladder)[1..] == Map(BotIdJson, ladder[1..]);
      StringsOfBotIds(ladder[1..]);
      assert ladder == [ladder[0]] + ladder[1..];
    }
  }

  /** The ladder a decoded object's attributes describe, when they have the right types. */
  function Attributes(attributes: JsonObject): Option<LadderState> {
    if "ladder" in attributes && "cur" in attributes && "direction" in attributes
       && attributes["ladder"].JArr? && attributes["cur"].JNum? && attributes["direction"].JNum?
    then
      match Strings(attributes["ladder"].items)
      case Some(ladder) => Some(LadderState(ladder, attributes["cur"].n, attributes["direction"].n))
      case None => None
    else None
  }

  /** Decoding an encoded ladder gives a ladder with exactly its three fields, holding the
      values they had. */
  lemma DecodeEncode(s: LadderState)
    ensures Decode(Encode(s)).LadderObject?
    ensures Decode(Encode(s)).attributes.Keys == {"ladder", "cur", "direction"}
    ensures Attributes(Decode(Encode(s)).attributes) == Some(s)
  {
    var attrs := Decode(Encode(s)).attributes;
    assert attrs.Keys == {"ladder", "cur", "direction"};
    StringsOfBotIds(s.ladder);
  }

  /** `save` of a ladder into the log of ladder files. */
  function SaveLadder(log: seq<JsonObject>, s: LadderState): seq<JsonObject> {
    SnapshotLog.Save(log, Encode(s))
  }

  /** `BubbleLadder.load`: the newest file decoded, or a new ladder when there is none. */
  function LoadLadder(log: seq<JsonObject>): Decoded {
    if |log| > 0 then Decode(log[|log| - 1])
    else LadderObject(Encode(Defaults) - {LadderTag})
  }

  /** Loading gives back the ladder saved last, and the defaults from an empty directory. */
  lemma LoadSavedLadder(log: seq<JsonObject>, s: LadderState)
    ensures LoadLadder(SaveLadder(log, s)).LadderObject?
    ensures Attributes(LoadLadder(SaveLadder(log, s)).attributes) == Some(s)
    ensures Attributes(LoadLadder([]).attributes) == Some(Defaults)
  {
    DecodeEncode(s);
    DecodeEncode(Defaults);
  }
}
