// The fleet balancer: a few greedy moves a round, each bringing the split of hashrate measurably closer to the target.
module Balancer {
  import opened Hex

  const TIE_TOLERANCE := 0.0004
  const BALANCE_TOLERANCE := 0.05
  const MAX_MOVES := 3
  const MOVE_COOLDOWN := 1800.0
  const MIN_GAIN := 0.000000001

  /** A miner under the balancer: its hashrate, and the coins its session can reach. */
  datatype Miner = Miner(worker: string, hash: real, alive: set<string>)

  /** What a round is given: the miners, the coins to look at, the target share of each target coin, and the difficulty
      lookup, if there is one. */
  datatype Fleet = Fleet(miners: seq<Miner>, coins: seq<string>, target: map<string, real>, lookup: Option<string -> real>)

  datatype Move = Move(miner: nat, coin: string)

  // ---- Distance from target ----

  function Total(miners: seq<Miner>): real {
    if miners == [] then 0.0 else Total(miners[..|miners| - 1]) + miners[|miners| - 1].hash
  }

  /** The hashrate on a coin. */
  function On(miners: seq<Miner>, at: seq<string>, coin: string): real
    requires |at| == |miners|
  {
    if miners == [] then 0.0
    else
      var n := |miners| - 1;
      On(miners[..n], at[..n], coin) + if at[n] == coin then miners[n].hash else 0.0
  }

  /** How far a coin is from its target share; a coin outside the target only counts when it has hashrate. */
  function Gap(f: Fleet, at: seq<string>, coin: string): real
    requires |at| == |f.miners| && Total(f.miners) > 0.0
  {
    var have := On(f.miners, at, coin);
    if coin in f.target then have / Total(f.miners) - f.target[coin]
    else if have > 0.0 then have / Total(f.miners)
    else 0.0
  }

  function Square(x: real): (r: real)
    ensures r >= 0.0
  {
    x * x
  }

  function Abs(x: real): real {
    if x < 0.0 then -x else x
  }

  function SumOfSquares(f: Fleet, at: seq<string>, coins: seq<string>): (r: real)
    requires |at| == |f.miners| && Total(f.miners) > 0.0
    ensures r >= 0.0
  {
    if coins == [] then 0.0
    else SumOfSquares(f, at, coins[..|coins| - 1]) + Square(Gap(f, at, coins[|coins| - 1]))
  }

  function WorstGap(f: Fleet, at: seq<string>, coins: seq<string>): (r: real)
    requires |at| == |f.miners| && Total(f.miners) > 0.0
    ensures r >= 0.0
  {
    if coins == [] then 0.0
    else
      var before, last := WorstGap(f, at, coins[..|coins| - 1]), Abs(Gap(f, at, coins[|coins| - 1]));
      if before < last then last else before
  }

  function Score(f: Fleet, at: seq<string>): (r: real)
    requires |at| == |f.miners|
    ensures r >= 0.0
  {
    if Total(f.miners) <= 0.0 then 0.0 else SumOfSquares(f, at, f.coins)
  }

  function Worst(f: Fleet, at: seq<string>): (r: real)
    requires |at| == |f.miners|
    ensures r >= 0.0
  {
    if Total(f.miners) <= 0.0 then 0.0 else WorstGap(f, at, f.coins)
  }

  // ---- Fit of miners to difficulties ----

  function InUse(at: seq<string>): set<string> {
    set c | c in at
  }

  /** How many coins in use are easier. */
  function Rank(lookup: string -> real, used: set<string>, coin: string): nat {
    |set c | c in used && lookup(c) < lookup(coin)|
  }

  /** Larger hashrate on easier coins costs more; nothing is guessed while a coin in use has no difficulty. */
  function Fit(f: Fleet, at: seq<string>): real
    requires |at| == |f.miners|
  {
    if f.lookup.None? || (exists c :: c in InUse(at) && f.lookup.value(c) <= 0.0) then 0.0
    else FitOf(f.miners, at, f.lookup.value, InUse(at))
  }

  function FitOf(miners: seq<Miner>, at: seq<string>, lookup: string -> real, used: set<string>): real
    requires |at| == |miners|
  {
    if miners == [] then 0.0
    else
      var n := |miners| - 1;
      FitOf(miners[..n], at[..n], lookup, used)
      + if miners[n].hash > 0.0 then miners[n].hash * (|used| - 1 - Rank(lookup, used, at[n])) as real else 0.0
  }

  // ---- A round ----

  /** A move that is allowed. */
  predicate Allowed(f: Fleet, at: seq<string>, movable: seq<bool>, m: Move)
    requires |at| == |movable| == |f.miners|
  {
    && m.miner < |at| && movable[m.miner] && f.miners[m.miner].hash > 0.0
    && m.coin in f.target && m.coin != at[m.miner] && m.coin in f.miners[m.miner].alive
  }

  /** A move that is allowed and helps. */
  predicate Helps(f: Fleet, at: seq<string>, movable: seq<bool>, m: Move)
    requires |at| == |movable| == |f.miners|
  {
    Allowed(f, at, movable, m) && Score(f, at[m.miner := m.coin]) < Score(f, at) - MIN_GAIN
  }

  /** The move a round takes: as good as the best within the tie tolerance, and the best fit among those. */
  ghost predicate Chosen(f: Fleet, at: seq<string>, movable: seq<bool>, m: Move)
    requires |at| == |movable| == |f.miners|
  {
    && Helps(f, at, movable, m)
    && NearBest(f, at, movable, m)
    && forall o :: Helps(f, at, movable, o) && NearBest(f, at, movable, o) ==>
         Fit(f, at[m.miner := m.coin]) <= Fit(f, at[o.miner := o.coin])
  }

  ghost predicate NearBest(f: Fleet, at: seq<string>, movable: seq<bool>, m: Move)
    requires |at| == |movable| == |f.miners| && m.miner < |at|
  {
    forall o :: Helps(f, at, movable, o) ==>
      Score(f, at[m.miner := m.coin]) <= Score(f, at[o.miner := o.coin]) + TIE_TOLERANCE
  }

  ghost predicate NothingHelps(f: Fleet, at: seq<string>, movable: seq<bool>)
    requires |at| == |movable| == |f.miners|
  {
    forall m :: !Helps(f, at, movable, m)
  }

  /** Whether a move is taken, and whether there is nothing more to do, from where the miners are and which are free. */
  type Taking = (seq<string>, seq<bool>, Move) -> bool

  type Stopping = (seq<string>, seq<bool>) -> bool

  ghost function TakesOf(f: Fleet): Taking {
    (at: seq<string>, movable: seq<bool>, m: Move) =>
      |at| == |movable| == |f.miners| && Worst(f, at) > BALANCE_TOLERANCE && Chosen(f, at, movable, m)
  }

  ghost function StopsOf(f: Fleet): Stopping {
    (at: seq<string>, movable: seq<bool>) =>
      |at| == |movable| == |f.miners| && (Worst(f, at) <= BALANCE_TOLERANCE || NothingHelps(f, at, movable))
  }

  /** Moves in order, each taken from where the last one left, a moved miner staying put; and nothing more to do at the end. */
  ghost predicate Rounds(takes: Taking, stops: Stopping, at: seq<string>, movable: seq<bool>, moves: seq<Move>, budget: nat)
    requires |at| == |movable|
    decreases |moves|
  {
    if moves == [] then budget == 0 || stops(at, movable)
    else
      && budget > 0 && moves[0].miner < |at| && takes(at, movable, moves[0])
      && Rounds(takes, stops, at[moves[0].miner := moves[0].coin], movable[moves[0].miner := false], moves[1..], budget - 1)
  }

  /** The moves of one round of a fleet. */
  ghost predicate RoundFrom(f: Fleet, at: seq<string>, movable: seq<bool>, moves: seq<Move>, budget: nat)
    requires |at| == |movable| == |f.miners|
  {
    Rounds(TakesOf(f), StopsOf(f), at, movable, moves, budget)
  }

  function Moved(at: seq<string>, moves: seq<Move>): (r: seq<string>)
    requires forall i :: 0 <= i < |moves| ==> moves[i].miner < |at|
    ensures |r| == |at|
    decreases |moves|
  {
    if moves == [] then at else Moved(at[moves[0].miner := moves[0].coin], moves[1..])
  }

  /** The distance left after a move. */
  function After(f: Fleet, at: seq<string>, m: Move): real
    requires |at| == |f.miners| && m.miner < |at|
  {
    Score(f, at[m.miner := m.coin])
  }

  function FitAfter(f: Fleet, at: seq<string>, m: Move): real
    requires |at| == |f.miners| && m.miner < |at|
  {
    Fit(f, at[m.miner := m.coin])
  }

  /** Every move that helps. */
  method HelpfulMoves(f: Fleet, at: seq<string>, movable: seq<bool>, targets: seq<string>) returns (options: seq<Move>)
    requires |at| == |movable| == |f.miners| && forall c :: c in targets <==> c in f.target
    ensures forall m :: m in options <==> Helps(f, at, movable, m)
  {
    options := [];
    for i := 0 to |f.miners|
      invariant forall m :: m in options <==> m.miner < i && Helps(f, at, movable, m)
    {
      if movable[i] && f.miners[i].hash > 0.0 {
        ghost var before := options;
        for k := 0 to |targets|
          invariant forall m :: m in options <==>
                      (m.miner < i && Helps(f, at, movable, m))
                      || (m.miner == i && m.coin in targets[..k] && Helps(f, at, movable, m))
        {
          var m := Move(i, targets[k]);
          assert targets[..k + 1] == targets[..k] + [targets[k]];
          if m.coin != at[i] && m.coin in f.miners[i].alive && After(f, at, m) < Score(f, at) - MIN_GAIN {
            options := options + [m];
          }
        }
        assert targets[..|targets|] == targets;
      }
    }
  }

  /** The best fit among the options whose score is close to the lowest. */
  method BestOf(options: seq<Move>, score: Move --> real, fit: Move --> real) returns (pick: Move)
    requires options != [] && forall m :: m in options ==> score.requires(m) && fit.requires(m)
    ensures pick in options && forall o :: o in options ==> score(pick) <= score(o) + TIE_TOLERANCE
    ensures forall o :: o in options && (forall p :: p in options ==> score(o) <= score(p) + TIE_TOLERANCE) ==>
              fit(pick) <= fit(o)
  {
    var best := options[0];
    for i := 1 to |options|
      invariant best in options && forall k :: 0 <= k < i ==> score(best) <= score(options[k])
    {
      if score(options[i]) < score(best) {
        best := options[i];
      }
    }
    pick := best;
    for i := 0 to |options|
      invariant pick in options && score(pick) <= score(best) + TIE_TOLERANCE
      invariant forall k :: 0 <= k < i && score(options[k]) <= score(best) + TIE_TOLERANCE ==> fit(pick) <= fit(options[k])
    {
      if score(options[i]) <= score(best) + TIE_TOLERANCE && fit(options[i]) < fit(pick) {
        pick := options[i];
      }
    }
  }

  /** One greedy choice, if there is one to make. */
  method ChooseMove(f: Fleet, at: seq<string>, movable: seq<bool>, targets: seq<string>) returns (chosen: Option<Move>)
    requires |at| == |movable| == |f.miners| && forall c :: c in targets <==> c in f.target
    ensures chosen.Some? ==> Chosen(f, at, movable, chosen.value)
    ensures chosen.None? ==> NothingHelps(f, at, movable)
  {
    var options := HelpfulMoves(f, at, movable, targets);
    if options == [] {
      assert forall m :: m !in options;
      return None;
    }
    var pick := BestOf(options, (m: Move) requires m.miner < |at| => After(f, at, m),
                       (m: Move) requires m.miner < |at| => FitAfter(f, at, m));
    chosen := Some(pick);
  }

  // ---- The record of placements ----

  /** Where every balanced worker was put, and when each was last moved. */
  datatype Book = Book(placement: map<string, string>, movedAt: map<string, real>)

  /** Where each miner starts a round: where it was put, or else the coin its session is on. */
  function StartAt(book: Book, f: Fleet, active: seq<string>): (at: seq<string>)
    requires |active| == |f.miners|
    ensures |at| == |f.miners|
  {
    seq(|f.miners|, (i: nat) requires i < |f.miners| =>
      if f.miners[i].worker in book.placement then book.placement[f.miners[i].worker] else active[i])
  }

  /** A miner moved less than the cooldown ago is settled. */
  function Unsettled(book: Book, f: Fleet, now: real): (movable: seq<bool>)
    ensures |movable| == |f.miners|
  {
    seq(|f.miners|, (i: nat) requires i < |f.miners| =>
      f.miners[i].worker in book.movedAt ==> now - book.movedAt[f.miners[i].worker] >= MOVE_COOLDOWN)
  }

  /** Every placement recorded, and the time of those that changed. */
  function Recorded(book: Book, miners: seq<Miner>, before: seq<string>, after: seq<string>, now: real): Book
    requires |before| == |after| == |miners|
  {
    if miners == [] then book
    else
      var n := |miners| - 1;
      var b := Recorded(book, miners[..n], before[..n], after[..n], now);
      var w := miners[n].worker;
      Book(b.placement[w := after[n]], if after[n] != before[n] then b.movedAt[w := now] else b.movedAt)
  }

  /** Placements of workers no longer under the balancer are dropped. */
  function Kept(book: Book, gone: set<string>): Book {
    book.(placement := book.placement - gone)
  }

  ghost predicate DistinctWorkers(miners: seq<Miner>) {
    forall i, j :: 0 <= i < j < |miners| ==> miners[i].worker != miners[j].worker
  }

  /** The coins looked at are each looked at once, and none of the target or in use is left out; one that is neither adds
      nothing. */
  ghost predicate Covers(f: Fleet, at: seq<string>)
    requires |at| == |f.miners|
  {
    && (forall i, j :: 0 <= i < j < |f.coins| ==> f.coins[i] != f.coins[j])
    && (forall c :: c in f.target || c in at ==> c in f.coins)
  }

  class Fleets {
    var placement: map<string, string>
    var movedAt: map<string, real>

    ghost function Record(): Book
      reads this
    {
      Book(placement, movedAt)
    }

    constructor ()
      ensures Record() == Book(map[], map[])
    {
      placement, movedAt := map[], map[];
    }

    /** One round. */
    method Balance(f: Fleet, targets: seq<string>, active: seq<string>, gone: set<string>, now: real)
      returns (moves: seq<Move>)
      requires |active| == |f.miners| && forall c :: c in targets <==> c in f.target
      requires Covers(f, StartAt(Kept(Record(), gone), f, active)) && DistinctWorkers(f.miners)
      modifies this
      ensures var was := Kept(old(Record()), gone);
              var at := StartAt(was, f, active);
              && RoundFrom(f, at, Unsettled(was, f, now), moves, MAX_MOVES)
              && (forall i :: 0 <= i < |moves| ==> moves[i].miner < |at|)
              && Record() == Recorded(was, f.miners, at, Moved(at, moves), now)
    {
      placement := placement - gone;
      ghost var was := Record();
      var start := StartAt(Book(placement, movedAt), f, active);
      var movable := Unsettled(Book(placement, movedAt), f, now);
      var at;
      moves, at := GreedyMoves(f, start, movable, targets);
      RecordPlacements(f.miners, start, at, now);
    }

    /** Writes the placements of a round down. */
    method RecordPlacements(miners: seq<Miner>, before: seq<string>, after: seq<string>, now: real)
      requires |before| == |after| == |miners|
      modifies this
      ensures Record() == Recorded(old(Record()), miners, before, after, now)
    {
      for i := 0 to |miners|
        invariant Record() == Recorded(old(Record()), miners[..i], before[..i], after[..i], now)
      {
        placement := placement[miners[i].worker := after[i]];
        if after[i] != before[i] {
          movedAt := movedAt[miners[i].worker := now];
        }
        assert miners[..i + 1][..i] == miners[..i];
        assert before[..i + 1][..i] == before[..i];
        assert after[..i + 1][..i] == after[..i];
      }
      assert miners[..|miners|] == miners && before[..|miners|] == before && after[..|miners|] == after;
    }
  }

  /** The greedy loop: at most three moves, each from where the last one left. */
  method GreedyMoves(f: Fleet, start: seq<string>, free: seq<bool>, targets: seq<string>)
    returns (moves: seq<Move>, at: seq<string>)
    requires |start| == |free| == |f.miners| && forall c :: c in targets <==> c in f.target
    ensures RoundFrom(f, start, free, moves, MAX_MOVES)
    ensures forall i :: 0 <= i < |moves| ==> moves[i].miner < |start|
    ensures at == Moved(start, moves)
  {
    moves, at := [], start;
    var movable := free;
    while |moves| < MAX_MOVES
      invariant |moves| <= MAX_MOVES && |at| == |movable| == |f.miners|
      invariant forall i :: 0 <= i < |moves| ==> moves[i].miner < |start|
      invariant at == Moved(start, moves)
      invariant Leads(TakesOf(f), start, free, moves, MAX_MOVES, at, movable)
      decreases MAX_MOVES - |moves|
    {
      if Worst(f, at) <= BALANCE_TOLERANCE {
        break;
      }
      var chosen := ChooseMove(f, at, movable, targets);
      if chosen.None? {
        break;
      }
      var m := chosen.value;
      OneMoreLeads(TakesOf(f), start, free, moves, MAX_MOVES, at, movable, m);
      OneMoreMoved(start, moves, m);
      moves, at, movable := moves + [m], at[m.miner := m.coin], movable[m.miner := false];
    }
    LeadsToRound(TakesOf(f), StopsOf(f), start, free, moves, MAX_MOVES, at, movable);
  }

  /** The moves so far lead from one state of a round to another. */
  ghost predicate Leads(takes: Taking, at: seq<string>, movable: seq<bool>, moves: seq<Move>,
                        budget: nat, to: seq<string>, left: seq<bool>)
    requires |at| == |movable|
    decreases |moves|
  {
    if moves == [] then to == at && left == movable
    else
      && budget > 0 && moves[0].miner < |at| && takes(at, movable, moves[0])
      && Leads(takes, at[moves[0].miner := moves[0].coin], movable[moves[0].miner := false], moves[1..], budget - 1, to, left)
  }

  lemma {:induction false} OneMoreLeads(takes: Taking, at: seq<string>, movable: seq<bool>,
                                        moves: seq<Move>, budget: nat, to: seq<string>, left: seq<bool>, m: Move)
    requires |at| == |movable| == |to| == |left| && Leads(takes, at, movable, moves, budget, to, left)
    requires |moves| < budget && m.miner < |to| && takes(to, left, m)
    ensures Leads(takes, at, movable, moves + [m], budget, to[m.miner := m.coin], left[m.miner := false])
    decreases |moves|
  {
    if moves == [] {
      assert ([] + [m])[1..] == [];
    } else {
      assert (moves + [m])[1..] == moves[1..] + [m];
      OneMoreLeads(takes, at[moves[0].miner := moves[0].coin], movable[moves[0].miner := false], moves[1..], budget - 1,
                   to, left, m);
    }
  }

  lemma {:induction false} OneMoreMoved(at: seq<string>, moves: seq<Move>, m: Move)
    requires (forall i :: 0 <= i < |moves| ==> moves[i].miner < |at|) && m.miner < |at|
    ensures Moved(at, moves + [m]) == Moved(at, moves)[m.miner := m.coin]
    decreases |moves|
  {
    if moves == [] {
      assert ([] + [m])[1..] == [];
    } else {
      assert (moves + [m])[1..] == moves[1..] + [m];
      OneMoreMoved(at[moves[0].miner := moves[0].coin], moves[1..], m);
    }
  }

  /** Moves that lead to a place with nothing left to do make a round. */
  lemma {:induction false} LeadsToRound(takes: Taking, stops: Stopping, at: seq<string>, movable: seq<bool>, moves: seq<Move>,
                                        budget: nat, to: seq<string>, left: seq<bool>)
    requires |at| == |movable| == |to| == |left| && Leads(takes, at, movable, moves, budget, to, left)
    requires |moves| == budget || stops(to, left)
    ensures Rounds(takes, stops, at, movable, moves, budget)
    decreases |moves|
  {
    if moves != [] {
      LeadsToRound(takes, stops, at[moves[0].miner := moves[0].coin], movable[moves[0].miner := false], moves[1..], budget - 1,
                   to, left);
    }
  }
}
