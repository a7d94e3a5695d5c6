// Fleet balancing over whole runs: every move descends, a round ends for a reason, and nobody is moved twice in a cooldown.
module BalancerRuns {
  import opened Hex
  import opened Balancer
  import Rearrangement
  import Sets

  // ---- One round ----

  /** Every move that is taken is as asked. */
  ghost predicate OnlyTakes(takes: Taking, asked: Taking) {
    forall at: seq<string>, movable: seq<bool>, m: Move {:trigger takes(at, movable, m)} ::
      |at| == |movable| && takes(at, movable, m) ==> asked(at, movable, m)
  }

  /** A move of a free miner to another coin. */
  predicate LegalMove(at: seq<string>, movable: seq<bool>, m: Move) {
    m.miner < |at| && m.miner < |movable| && movable[m.miner] && m.coin != at[m.miner]
  }

  lemma TakesLegally(f: Fleet)
    ensures OnlyTakes(TakesOf(f), LegalMove)
  {
  }

  /** Moves within a budget, each of a free miner to another coin, after which it is free no more. */
  ghost predicate Legal(at: seq<string>, movable: seq<bool>, moves: seq<Move>, budget: nat)
    requires |at| == |movable|
    decreases |moves|
  {
    moves != [] ==>
      var m := moves[0];
      && budget > 0 && m.miner < |at| && movable[m.miner] && m.coin != at[m.miner]
      && Legal(at[m.miner := m.coin], movable[m.miner := false], moves[1..], budget - 1)
  }

  lemma {:induction false} RoundsLegal(takes: Taking, stops: Stopping, at: seq<string>, movable: seq<bool>, moves: seq<Move>,
                                       budget: nat)
    requires |at| == |movable| && Rounds(takes, stops, at, movable, moves, budget) && OnlyTakes(takes, LegalMove)
    ensures Legal(at, movable, moves, budget)
    decreases |moves|
  {
    if moves != [] {
      assert LegalMove(at, movable, moves[0]);
      RoundsLegal(takes, stops, at[moves[0].miner := moves[0].coin], movable[moves[0].miner := false], moves[1..], budget - 1);
    }
  }

  lemma {:induction false} LegalFree(at: seq<string>, movable: seq<bool>, moves: seq<Move>, budget: nat)
    requires |at| == |movable| && Legal(at, movable, moves, budget)
    ensures |moves| <= budget
    ensures forall i :: 0 <= i < |moves| ==>
              moves[i].miner < |at| && movable[moves[i].miner] && moves[i].coin != at[moves[i].miner]
    ensures forall i, j :: 0 <= i < j < |moves| ==> moves[i].miner != moves[j].miner
    decreases |moves|
  {
    if moves == [] {
    } else {
      var m, rest := moves[0], moves[1..];
      var free := movable[m.miner := false];
      LegalFree(at[m.miner := m.coin], free, rest, budget - 1);
      forall i | 0 < i < |moves|
        ensures moves[i].miner < |at| && movable[moves[i].miner] && moves[i].miner != m.miner
        ensures moves[i].coin != at[moves[i].miner]
      {
        assert moves[i] == rest[i - 1] && free[rest[i - 1].miner];
      }
      forall i, j | 0 <= i < j < |moves|
        ensures moves[i].miner != moves[j].miner
      {
        assert moves[j] == rest[j - 1] && (i > 0 ==> moves[i] == rest[i - 1]);
      }
    }
  }

  /** A round moves each miner at most once, and only free ones. */
  lemma MovesFree(f: Fleet, at: seq<string>, movable: seq<bool>, moves: seq<Move>, budget: nat)
    requires |at| == |movable| == |f.miners| && RoundFrom(f, at, movable, moves, budget)
    ensures |moves| <= budget
    ensures forall i :: 0 <= i < |moves| ==>
              moves[i].miner < |at| && movable[moves[i].miner] && moves[i].coin != at[moves[i].miner]
    ensures forall i, j :: 0 <= i < j < |moves| ==> moves[i].miner != moves[j].miner
  {
    TakesLegally(f);
    RoundsLegal(TakesOf(f), StopsOf(f), at, movable, moves, budget);
    LegalFree(at, movable, moves, budget);
  }

  /** The distance of a split, as a function of where the miners are. */
  function ScoreOf(f: Fleet): seq<string> -> real {
    (at: seq<string>) => if |at| == |f.miners| then Score(f, at) else 0.0
  }

  /** Each move lowers the measure by more than the least gain. */
  ghost predicate StepsDown(measure: seq<string> -> real, at: seq<string>, moves: seq<Move>)
    requires forall i :: 0 <= i < |moves| ==> moves[i].miner < |at|
    decreases |moves|
  {
    moves != [] ==>
      var next := at[moves[0].miner := moves[0].coin];
      measure(next) < measure(at) - MIN_GAIN && StepsDown(measure, next, moves[1..])
  }

  lemma {:induction false} Descent(measure: seq<string> -> real, at: seq<string>, moves: seq<Move>)
    requires (forall i :: 0 <= i < |moves| ==> moves[i].miner < |at|) && StepsDown(measure, at, moves)
    ensures measure(Moved(at, moves)) + |moves| as real * MIN_GAIN <= measure(at)
    decreases |moves|
  {
    if moves != [] {
      Descent(measure, at[moves[0].miner := moves[0].coin], moves[1..]);
      assert |moves| as real == |moves[1..]| as real + 1.0;
    }
  }

  /** Every move that is taken lowers the measure. */
  ghost predicate Lowers(takes: Taking, measure: seq<string> -> real) {
    forall at: seq<string>, movable: seq<bool>, m: Move {:trigger takes(at, movable, m)} ::
      |at| == |movable| && m.miner < |at| && takes(at, movable, m) ==>
        measure(at[m.miner := m.coin]) < measure(at) - MIN_GAIN
  }

  lemma TakesLower(f: Fleet)
    ensures Lowers(TakesOf(f), ScoreOf(f))
  {
  }

  lemma {:induction false} RoundsStepDown(takes: Taking, stops: Stopping, measure: seq<string> -> real, at: seq<string>,
                                          movable: seq<bool>, moves: seq<Move>, budget: nat)
    requires |at| == |movable| && Rounds(takes, stops, at, movable, moves, budget) && Lowers(takes, measure)
    requires forall i :: 0 <= i < |moves| ==> moves[i].miner < |at|
    ensures StepsDown(measure, at, moves)
    decreases |moves|
  {
    if moves != [] {
      RoundsStepDown(takes, stops, measure, at[moves[0].miner := moves[0].coin], movable[moves[0].miner := false],
                     moves[1..], budget - 1);
    }
  }

  /** Each move brings the split closer by more than the least gain. */
  lemma RoundDescends(f: Fleet, at: seq<string>, movable: seq<bool>, moves: seq<Move>, budget: nat)
    requires |at| == |movable| == |f.miners| && RoundFrom(f, at, movable, moves, budget)
    requires forall i :: 0 <= i < |moves| ==> moves[i].miner < |at|
    ensures Score(f, Moved(at, moves)) + |moves| as real * MIN_GAIN <= Score(f, at)
  {
    TakesLower(f);
    RoundsStepDown(TakesOf(f), StopsOf(f), ScoreOf(f), at, movable, moves, budget);
    Descent(ScoreOf(f), at, moves);
  }

  /** Which miners are still free to move. */
  function StillFree(movable: seq<bool>, moves: seq<Move>): (r: seq<bool>)
    requires forall i :: 0 <= i < |moves| ==> moves[i].miner < |movable|
    ensures |r| == |movable|
    decreases |moves|
  {
    if moves == [] then movable else StillFree(movable[moves[0].miner := false], moves[1..])
  }

  lemma {:induction false} RoundsEnd(takes: Taking, stops: Stopping, at: seq<string>, movable: seq<bool>, moves: seq<Move>,
                                     budget: nat)
    requires |at| == |movable| && Rounds(takes, stops, at, movable, moves, budget)
    requires forall i :: 0 <= i < |moves| ==> moves[i].miner < |at|
    ensures |moves| == budget || stops(Moved(at, moves), StillFree(movable, moves))
    decreases |moves|
  {
    if moves != [] {
      RoundsEnd(takes, stops, at[moves[0].miner := moves[0].coin], movable[moves[0].miner := false], moves[1..], budget - 1);
    }
  }

  /** A round ends within tolerance, after three moves, or where no allowed move of a miner it has left alone helps. */
  lemma RoundEnds(f: Fleet, at: seq<string>, movable: seq<bool>, moves: seq<Move>, budget: nat)
    requires |at| == |movable| == |f.miners| && RoundFrom(f, at, movable, moves, budget)
    requires forall i :: 0 <= i < |moves| ==> moves[i].miner < |at|
    ensures || |moves| == budget || Worst(f, Moved(at, moves)) <= BALANCE_TOLERANCE
            || NothingHelps(f, Moved(at, moves), StillFree(movable, moves))
  {
    RoundsEnd(TakesOf(f), StopsOf(f), at, movable, moves, budget);
  }

  ghost predicate MovedBy(moves: seq<Move>, miner: nat) {
    exists i :: 0 <= i < |moves| && moves[i].miner == miner
  }

  /** The miners elsewhere at the end of a round are exactly those it moved. */
  lemma {:induction false} ElsewhereIffMoved(at: seq<string>, moves: seq<Move>, i: nat)
    requires i < |at|
    requires forall k :: 0 <= k < |moves| ==> moves[k].miner < |at| && moves[k].coin != at[moves[k].miner]
    requires forall k, l :: 0 <= k < l < |moves| ==> moves[k].miner != moves[l].miner
    ensures Moved(at, moves)[i] != at[i] <==> MovedBy(moves, i)
    decreases |moves|
  {
    if moves == [] {
    } else {
      var m, rest := moves[0], moves[1..];
      var next := at[m.miner := m.coin];
      assert forall k :: 0 <= k < |rest| ==> rest[k] == moves[k + 1] && next[rest[k].miner] == at[rest[k].miner];
      ElsewhereIffMoved(next, rest, i);
      FirstOrRest(moves, i);
    }
  }

  lemma FirstOrRest(moves: seq<Move>, miner: nat)
    requires moves != []
    ensures MovedBy(moves, miner) <==> moves[0].miner == miner || MovedBy(moves[1..], miner)
  {
    if k :| 0 <= k < |moves[1..]| && moves[1..][k].miner == miner {
      assert moves[k + 1].miner == miner;
    }
    if k :| 0 <= k < |moves| && moves[k].miner == miner && k > 0 {
      assert moves[1..][k - 1].miner == miner;
    }
  }

  // ---- The record ----

  /** A record holds every miner's new place, and the time of its change. */
  lemma {:induction false} RecordedOne(book: Book, miners: seq<Miner>, before: seq<string>, after: seq<string>, now: real,
                                       i: nat)
    requires |before| == |after| == |miners| && DistinctWorkers(miners) && i < |miners|
    ensures var b := Recorded(book, miners, before, after, now);
            && miners[i].worker in b.placement && b.placement[miners[i].worker] == after[i]
            && (after[i] != before[i] ==> miners[i].worker in b.movedAt && b.movedAt[miners[i].worker] == now)
  {
    var n := |miners| - 1;
    if i < n {
      RecordedOne(book, miners[..n], before[..n], after[..n], now, i);
    }
  }

  /** A worker that was not moved keeps the time of its last move. */
  lemma {:induction false} RecordedRest(book: Book, miners: seq<Miner>, before: seq<string>, after: seq<string>, now: real,
                                        w: string)
    requires |before| == |after| == |miners|
    requires forall i :: 0 <= i < |miners| && miners[i].worker == w ==> after[i] == before[i]
    ensures var b := Recorded(book, miners, before, after, now);
            && (w in b.movedAt <==> w in book.movedAt)
            && (w in book.movedAt ==> b.movedAt[w] == book.movedAt[w])
  {
    if miners == [] {
    } else {
      var n := |miners| - 1;
      RecordedRest(book, miners[..n], before[..n], after[..n], now, w);
    }
  }

  // ---- Runs over one fleet ----

  /** A round as it happened: the coins the sessions were on, the workers dropped, the time, the moves. */
  datatype Round = Round(active: seq<string>, gone: set<string>, now: real, moves: seq<Move>)

  ghost predicate Happens(f: Fleet, book: Book, r: Round) {
    && |r.active| == |f.miners|
    && (forall i :: 0 <= i < |f.miners| ==> f.miners[i].worker !in r.gone)
    && (var was := Kept(book, r.gone);
        RoundFrom(f, StartAt(was, f, r.active), Unsettled(was, f, r.now), r.moves, MAX_MOVES))
  }

  ghost function Next(f: Fleet, book: Book, r: Round): Book
    requires Happens(f, book, r)
  {
    var was := Kept(book, r.gone);
    var at := StartAt(was, f, r.active);
    MovesFree(f, at, Unsettled(was, f, r.now), r.moves, MAX_MOVES);
    Recorded(was, f.miners, at, Moved(at, r.moves), r.now)
  }

  ghost predicate Run(f: Fleet, book: Book, rounds: seq<Round>)
    decreases |rounds|
  {
    rounds != [] ==> Happens(f, book, rounds[0]) && Run(f, Next(f, book, rounds[0]), rounds[1..])
  }

  function MovesIn(rounds: seq<Round>): nat {
    if rounds == [] then 0 else |rounds[0].moves| + MovesIn(rounds[1..])
  }

  /** The record of a round places nobody but its miners. */
  lemma {:induction false} RecordedPlaces(book: Book, miners: seq<Miner>, before: seq<string>, after: seq<string>, now: real,
                                          w: string)
    requires |before| == |after| == |miners| && forall i :: 0 <= i < |miners| ==> miners[i].worker != w
    ensures w in Recorded(book, miners, before, after, now).placement <==> w in book.placement
  {
    if miners != [] {
      var n := |miners| - 1;
      RecordedPlaces(book, miners[..n], before[..n], after[..n], now, w);
    }
  }

  /** A worker dropped in a round has no place afterwards: when it comes back, to whatever fleet, it starts on its session's coin. */
  lemma ComesBackAnew(f: Fleet, book: Book, r: Round, w: string, later: Fleet, active: seq<string>, gone: set<string>, i: nat)
    requires Happens(f, book, r) && w in r.gone
    requires |active| == |later.miners| && i < |active| && later.miners[i].worker == w
    ensures StartAt(Kept(Next(f, book, r), gone), later, active)[i] == active[i]
  {
    var was := Kept(book, r.gone);
    var at := StartAt(was, f, r.active);
    MovesFree(f, at, Unsettled(was, f, r.now), r.moves, MAX_MOVES);
    RecordedPlaces(was, f.miners, at, Moved(at, r.moves), r.now, w);
  }

  /** A round starts where the one before it left every miner. */
  lemma StartsWhereLeft(f: Fleet, book: Book, r: Round, next: Round)
    requires DistinctWorkers(f.miners) && Happens(f, book, r) && Happens(f, Next(f, book, r), next)
    ensures var at := StartAt(Kept(book, r.gone), f, r.active);
            && (forall i :: 0 <= i < |r.moves| ==> r.moves[i].miner < |at|)
            && StartAt(Kept(Next(f, book, r), next.gone), f, next.active) == Moved(at, r.moves)
  {
    var was := Kept(book, r.gone);
    var at := StartAt(was, f, r.active);
    MovesFree(f, at, Unsettled(was, f, r.now), r.moves, MAX_MOVES);
    forall i | 0 <= i < |f.miners|
      ensures f.miners[i].worker in Next(f, book, r).placement
      ensures Next(f, book, r).placement[f.miners[i].worker] == Moved(at, r.moves)[i]
    {
      RecordedOne(was, f.miners, at, Moved(at, r.moves), r.now, i);
    }
  }

  lemma TakesToTarget(f: Fleet)
    ensures OnlyTakes(TakesOf(f), (at, movable, m: Move) => m.coin in f.target.Keys)
  {
  }

  lemma {:induction false} RoundsGoTo(takes: Taking, stops: Stopping, coins: set<string>, at: seq<string>, movable: seq<bool>,
                                      moves: seq<Move>, budget: nat)
    requires |at| == |movable| && Rounds(takes, stops, at, movable, moves, budget)
    requires OnlyTakes(takes, (at, movable, m: Move) => m.coin in coins)
    requires forall i :: 0 <= i < |moves| ==> moves[i].miner < |at|
    ensures forall c :: c in Moved(at, moves) ==> c in at || c in coins
    decreases |moves|
  {
    if moves != [] {
      var m := moves[0];
      RoundsGoTo(takes, stops, coins, at[m.miner := m.coin], movable[m.miner := false], moves[1..], budget - 1);
      assert m.coin in coins;
    }
  }

  lemma RoundCovers(f: Fleet, at: seq<string>, movable: seq<bool>, moves: seq<Move>, budget: nat)
    requires |at| == |movable| == |f.miners| && RoundFrom(f, at, movable, moves, budget) && Covers(f, at)
    requires forall i :: 0 <= i < |moves| ==> moves[i].miner < |at|
    ensures Covers(f, Moved(at, moves))
  {
    TakesToTarget(f);
    RoundsGoTo(TakesOf(f), StopsOf(f), f.target.Keys, at, movable, moves, budget);
  }

  /** So coins that do for one round do for the next. */
  lemma NextCovers(f: Fleet, book: Book, r: Round, next: Round)
    requires DistinctWorkers(f.miners) && Happens(f, book, r) && Happens(f, Next(f, book, r), next)
    requires Covers(f, StartAt(Kept(book, r.gone), f, r.active))
    ensures Covers(f, StartAt(Kept(Next(f, book, r), next.gone), f, next.active))
  {
    var was := Kept(book, r.gone);
    StartsWhereLeft(f, book, r, next);
    RoundCovers(f, StartAt(was, f, r.active), Unsettled(was, f, r.now), r.moves, MAX_MOVES);
  }

  /** A coin with nobody on it and no target adds nothing to the distance. */
  lemma IdleAddsNothing(f: Fleet, at: seq<string>, coin: string)
    requires |at| == |f.miners| && Total(f.miners) > 0.0 && coin !in at && coin !in f.target
    ensures Gap(f, at, coin) == 0.0
  {
    NobodyOn(f.miners, at, coin);
  }

  lemma {:induction false} NobodyOn(miners: seq<Miner>, at: seq<string>, coin: string)
    requires |at| == |miners| && coin !in at
    ensures On(miners, at, coin) == 0.0
  {
    if miners != [] {
      NobodyOn(miners[..|miners| - 1], at[..|miners| - 1], coin);
    }
  }

  /** However many rounds are run, the moves are paid for by the distance the first one started with. */
  lemma {:induction false} FinitelyManyMoves(f: Fleet, book: Book, rounds: seq<Round>)
    requires DistinctWorkers(f.miners) && rounds != [] && Run(f, book, rounds)
    ensures MovesIn(rounds) as real * MIN_GAIN <= Score(f, StartAt(Kept(book, rounds[0].gone), f, rounds[0].active))
    decreases |rounds|
  {
    var r := rounds[0];
    var was := Kept(book, r.gone);
    var at := StartAt(was, f, r.active);
    MovesFree(f, at, Unsettled(was, f, r.now), r.moves, MAX_MOVES);
    RoundDescends(f, at, Unsettled(was, f, r.now), r.moves, MAX_MOVES);
    if |rounds| > 1 {
      assert rounds[1..][0] == rounds[1];
      FinitelyManyMoves(f, Next(f, book, r), rounds[1..]);
      StartsWhereLeft(f, book, r, rounds[1]);
      assert MovesIn(rounds) as real == |r.moves| as real + MovesIn(rounds[1..]) as real;
    } else {
      assert MovesIn(rounds) == |r.moves|;
    }
  }

  // ---- Runs over changing fleets ----

  /** A round over the miners connected at the time. */
  datatype Turn = Turn(fleet: Fleet, round: Round)

  datatype Entry = Entry(worker: string, time: real)

  ghost predicate Turns(turns: seq<Turn>)
    decreases |turns|, 0
  {
    turns != [] ==>
      var n := |turns| - 1;
      && Turns(turns[..n]) && DistinctWorkers(turns[n].fleet.miners)
      && Happens(turns[n].fleet, BookAfter(turns[..n]), turns[n].round)
  }

  /** The record after some turns, from an empty one. */
  ghost function BookAfter(turns: seq<Turn>): Book
    requires Turns(turns)
    decreases |turns|, 1
  {
    if turns == [] then Book(map[], map[])
    else
      var n := |turns| - 1;
      Next(turns[n].fleet, BookAfter(turns[..n]), turns[n].round)
  }

  /** The moves of one round, as they concern workers. */
  ghost function Entries(f: Fleet, moves: seq<Move>, now: real): (log: seq<Entry>)
    requires forall i :: 0 <= i < |moves| ==> moves[i].miner < |f.miners|
    ensures |log| == |moves|
    ensures forall i :: 0 <= i < |moves| ==> log[i] == Entry(f.miners[moves[i].miner].worker, now)
  {
    seq(|moves|, (i: nat) requires i < |moves| => Entry(f.miners[moves[i].miner].worker, now))
  }

  /** All moves of some turns. */
  ghost function Log(turns: seq<Turn>): seq<Entry>
    requires Turns(turns)
  {
    if turns == [] then []
    else
      var n := |turns| - 1;
      var f, r := turns[n].fleet, turns[n].round;
      var was := Kept(BookAfter(turns[..n]), r.gone);
      MovesFree(f, StartAt(was, f, r.active), Unsettled(was, f, r.now), r.moves, MAX_MOVES);
      Log(turns[..n]) + Entries(f, r.moves, r.now)
  }

  ghost predicate Apart(log: seq<Entry>) {
    forall i, j :: 0 <= i < j < |log| && log[i].worker == log[j].worker ==> log[j].time - log[i].time >= 1800.0
  }

  /** The record knows a time no earlier than any move of a worker. */
  ghost predicate Known(log: seq<Entry>, book: Book) {
    forall i :: 0 <= i < |log| ==> log[i].worker in book.movedAt && log[i].time <= book.movedAt[log[i].worker]
  }

  /** Moves of distinct workers that are out of their cooldown, added to a log the book knows, stay apart. */
  lemma EntriesApart(book: Book, log: seq<Entry>, more: seq<Entry>, now: real)
    requires Apart(log) && Known(log, book)
    requires forall i, j :: 0 <= i < j < |more| ==> more[i].worker != more[j].worker
    requires forall i :: 0 <= i < |more| ==>
               more[i].time == now && (more[i].worker in book.movedAt ==> now - book.movedAt[more[i].worker] >= MOVE_COOLDOWN)
    ensures Apart(log + more)
  {
    var all := log + more;
    forall i, j | 0 <= i < j < |all| && all[i].worker == all[j].worker
      ensures all[j].time - all[i].time >= MOVE_COOLDOWN
    {
      if j >= |log| {
        assert all[j] == more[j - |log|];
      }
    }
  }

  /** One round over any fleet keeps moves of a worker apart. */
  lemma RoundKeepsApart(f: Fleet, book: Book, r: Round, log: seq<Entry>)
    requires DistinctWorkers(f.miners) && Happens(f, book, r) && Apart(log) && Known(log, book)
    ensures forall i :: 0 <= i < |r.moves| ==> r.moves[i].miner < |f.miners|
    ensures Apart(log + Entries(f, r.moves, r.now)) && Known(log + Entries(f, r.moves, r.now), Next(f, book, r))
  {
    var was := Kept(book, r.gone);
    var free := Unsettled(was, f, r.now);
    MovesFree(f, StartAt(was, f, r.active), free, r.moves, MAX_MOVES);
    var more := Entries(f, r.moves, r.now);
    forall i | 0 <= i < |more|
      ensures more[i].worker in book.movedAt ==> r.now - book.movedAt[more[i].worker] >= MOVE_COOLDOWN
    {
      assert free[r.moves[i].miner];
    }
    EntriesApart(book, log, more, r.now);
    RoundKnown(f, book, r, log, more);
  }

  lemma RoundKnown(f: Fleet, book: Book, r: Round, log: seq<Entry>, more: seq<Entry>)
    requires DistinctWorkers(f.miners) && Happens(f, book, r) && Known(log, book)
    requires forall i :: 0 <= i < |r.moves| ==> r.moves[i].miner < |f.miners|
    requires more == Entries(f, r.moves, r.now)
    ensures Known(log + more, Next(f, book, r))
  {
    var all, next := log + more, Next(f, book, r);
    forall i | 0 <= i < |all|
      ensures all[i].worker in next.movedAt && all[i].time <= next.movedAt[all[i].worker]
    {
      KnownAfter(f, book, r, all[i], i < |log|, i - |log|);
    }
  }

  lemma KnownAfter(f: Fleet, book: Book, r: Round, e: Entry, earlier: bool, k: int)
    requires DistinctWorkers(f.miners) && Happens(f, book, r)
    requires earlier ==> e.worker in book.movedAt && e.time <= book.movedAt[e.worker]
    requires !earlier ==>
               0 <= k < |r.moves| && r.moves[k].miner < |f.miners| && e == Entry(f.miners[r.moves[k].miner].worker, r.now)
    ensures var next := Next(f, book, r); e.worker in next.movedAt && e.time <= next.movedAt[e.worker]
  {
    var was := Kept(book, r.gone);
    var at := StartAt(was, f, r.active);
    var free := Unsettled(was, f, r.now);
    MovesFree(f, at, free, r.moves, MAX_MOVES);
    var after := Moved(at, r.moves);
    if !earlier {
      ElsewhereIffMoved(at, r.moves, r.moves[k].miner);
      RecordedOne(was, f.miners, at, after, r.now, r.moves[k].miner);
    } else if i: nat :| i < |f.miners| && f.miners[i].worker == e.worker && after[i] != at[i] {
      ElsewhereIffMoved(at, r.moves, i);
      RecordedOne(was, f.miners, at, after, r.now, i);
      assert free[i];
    } else {
      RecordedRest(was, f.miners, at, after, r.now, e.worker);
    }
  }

  /** No worker is moved twice within the cooldown, whatever miners come and go between the rounds. */
  lemma {:induction false} CooldownHolds(turns: seq<Turn>)
    requires Turns(turns)
    ensures Apart(Log(turns)) && Known(Log(turns), BookAfter(turns))
    decreases |turns|
  {
    if turns == [] {
    } else {
      var n := |turns| - 1;
      CooldownHolds(turns[..n]);
      RoundKeepsApart(turns[n].fleet, BookAfter(turns[..n]), turns[n].round, Log(turns[..n]));
    }
  }

  // ---- The fit ----

  function Power(m: Miner): real {
    if m.hash > 0.0 then m.hash else 0.0
  }

  function Powers(miners: seq<Miner>): (r: seq<real>)
    ensures |r| == |miners| && forall i :: 0 <= i < |r| ==> r[i] == Power(miners[i])
  {
    seq(|miners|, (i: nat) requires i < |miners| => Power(miners[i]))
  }

  /** How easy a coin is: how many coins in use are at least as hard, itself left out. */
  function Ease(lookup: string -> real, used: set<string>, coin: string): real {
    (|used| - 1 - Rank(lookup, used, coin)) as real
  }

  function Eases(lookup: string -> real, used: set<string>, at: seq<string>): (r: seq<real>)
    ensures |r| == |at| && forall i :: 0 <= i < |r| ==> r[i] == Ease(lookup, used, at[i])
  {
    seq(|at|, (i: nat) requires i < |at| => Ease(lookup, used, at[i]))
  }

  function Times(a: real, b: real): real {
    a * b
  }

  lemma {:induction false} FitIsSum(miners: seq<Miner>, at: seq<string>, lookup: string -> real, used: set<string>)
    requires |at| == |miners|
    ensures FitOf(miners, at, lookup, used) == Rearrangement.Sum(Times, Powers(miners), Eases(lookup, used, at))
  {
    if miners == [] {
    } else {
      var n := |miners| - 1;
      FitIsSum(miners[..n], at[..n], lookup, used);
      assert Powers(miners)[..n] == Powers(miners[..n]);
      assert Eases(lookup, used, at)[..n] == Eases(lookup, used, at[..n]);
      PowerTimes(miners[n], Ease(lookup, used, at[n]));
    }
  }

  lemma PowerTimes(m: Miner, ease: real)
    ensures Times(Power(m), ease) == if m.hash > 0.0 then m.hash * ease else 0.0
  {
  }

  lemma RankFollows(lookup: string -> real, used: set<string>, c: string, d: string)
    requires c in used && d in used
    ensures lookup(c) <= lookup(d) <==> Rank(lookup, used, c) <= Rank(lookup, used, d)
  {
    if lookup(c) <= lookup(d) {
      Sets.SubsetSize(set x | x in used && lookup(x) < lookup(c), set x | x in used && lookup(x) < lookup(d));
    } else {
      var easier := set x | x in used && lookup(x) < lookup(d);
      Sets.SubsetSize(easier + {d}, set x | x in used && lookup(x) < lookup(c));
    }
  }

  /** Larger miners sit on coins at least as hard. */
  ghost predicate Matched(miners: seq<Miner>, at: seq<string>, lookup: string -> real)
    requires |at| == |miners|
  {
    forall i, j :: 0 <= i < |at| && 0 <= j < |at| && Power(miners[i]) > Power(miners[j]) ==> lookup(at[i]) >= lookup(at[j])
  }

  lemma MatchedIsOpposed(miners: seq<Miner>, at: seq<string>, lookup: string -> real, used: set<string>)
    requires |at| == |miners| && used == InUse(at)
    ensures Matched(miners, at, lookup) <==> Rearrangement.Opposed(Powers(miners), Eases(lookup, used, at))
  {
    forall i, j | 0 <= i < |at| && 0 <= j < |at|
      ensures lookup(at[i]) >= lookup(at[j]) <==> Eases(lookup, used, at)[i] <= Eases(lookup, used, at)[j]
    {
      RankFollows(lookup, used, at[j], at[i]);
    }
  }

  /** An arrangement with as many miners on each coin. */
  ghost predicate SameCounts(at: seq<string>, other: seq<string>) {
    |at| == |other| && multiset(at) == multiset(other)
  }

  ghost predicate LeastFit(f: Fleet, at: seq<string>)
    requires |at| == |f.miners|
  {
    forall other :: SameCounts(at, other) ==> Fit(f, at) <= Fit(f, other)
  }

  lemma SameCoins(at: seq<string>, other: seq<string>)
    requires SameCounts(at, other)
    ensures InUse(at) == InUse(other)
  {
    forall c
      ensures c in at <==> c in other
    {
      assert c in at <==> c in multiset(at);
      assert c in other <==> c in multiset(other);
    }
  }

  lemma EasesWithout(lookup: string -> real, used: set<string>, at: seq<string>, k: nat)
    requires k < |at|
    ensures multiset(Eases(lookup, used, at))
            == multiset(Eases(lookup, used, Rearrangement.Without(at, k))) + multiset{Ease(lookup, used, at[k])}
  {
    Rearrangement.WithoutCounts(Eases(lookup, used, at), k);
    assert Rearrangement.Without(Eases(lookup, used, at), k) == Eases(lookup, used, Rearrangement.Without(at, k));
  }

  /** Taking the same coin out of both leaves them with the same counts. */
  lemma CountsWithout(at: seq<string>, other: seq<string>, n: nat, k: nat)
    requires SameCounts(at, other) && n < |at| && k < |other| && at[n] == other[k]
    ensures SameCounts(Rearrangement.Without(at, n), Rearrangement.Without(other, k))
  {
    Rearrangement.WithoutCounts(at, n);
    Rearrangement.WithoutCounts(other, k);
    assert multiset(Rearrangement.Without(at, n)) == multiset(at) - multiset{at[n]};
    assert multiset(Rearrangement.Without(other, k)) == multiset(other) - multiset{other[k]};
  }

  lemma {:induction false} EasesCounts(lookup: string -> real, used: set<string>, at: seq<string>, other: seq<string>)
    requires SameCounts(at, other)
    ensures multiset(Eases(lookup, used, at)) == multiset(Eases(lookup, used, other))
    decreases |at|
  {
    if at == [] {
      assert other == [];
    } else {
      assert at[0] in multiset(other);
      var k: nat :| k < |other| && other[k] == at[0];
      CountsWithout(at, other, 0, k);
      EasesCounts(lookup, used, Rearrangement.Without(at, 0), Rearrangement.Without(other, k));
      EasesWithout(lookup, used, at, 0);
      EasesWithout(lookup, used, other, k);
    }
  }

  /** While every coin in use has a difficulty, a fit is least, among all arrangements with as many miners on each coin,
      exactly when larger miners sit on harder coins. */
  lemma LeastIffMatched(f: Fleet, at: seq<string>)
    requires |at| == |f.miners| && f.lookup.Some? && forall c :: c in at ==> f.lookup.value(c) > 0.0
    ensures LeastFit(f, at) <==> Matched(f.miners, at, f.lookup.value)
  {
    if Matched(f.miners, at, f.lookup.value) {
      forall other | SameCounts(at, other)
        ensures Fit(f, at) <= Fit(f, other)
      {
        MatchedIsLeast(f, at, other);
      }
    } else {
      var other := Better(f, at);
    }
  }

  lemma MatchedIsLeast(f: Fleet, at: seq<string>, other: seq<string>)
    requires |at| == |f.miners| && f.lookup.Some? && Matched(f.miners, at, f.lookup.value) && SameCounts(at, other)
    ensures Fit(f, at) <= Fit(f, other)
  {
    var lookup, used := f.lookup.value, InUse(at);
    SameCoins(at, other);
    FitIsSum(f.miners, at, lookup, used);
    FitIsSum(f.miners, other, lookup, used);
    MatchedIsOpposed(f.miners, at, lookup, used);
    EasesCounts(lookup, used, at, other);
    Rearrangement.ProductsCross(Times);
    Rearrangement.OpposedIsLeast(Times, Powers(f.miners), Eases(lookup, used, at), Eases(lookup, used, other));
  }

  /** Where a larger miner sits on an easier coin, exchanging two miners fits strictly better. */
  lemma Better(f: Fleet, at: seq<string>) returns (other: seq<string>)
    requires |at| == |f.miners| && f.lookup.Some? && !Matched(f.miners, at, f.lookup.value)
    requires forall c :: c in at ==> f.lookup.value(c) > 0.0
    ensures SameCounts(at, other) && Fit(f, other) < Fit(f, at)
  {
    var lookup, used := f.lookup.value, InUse(at);
    MatchedIsOpposed(f.miners, at, lookup, used);
    Rearrangement.ProductsCross(Times);
    var i, j := Rearrangement.NotOpposedImproves(Times, Powers(f.miners), Eases(lookup, used, at));
    other := Rearrangement.Swapped(at, i, j);
    Rearrangement.SwapKeeps(at, i, j);
    SameCoins(at, other);
    FitIsSum(f.miners, at, lookup, used);
    FitIsSum(f.miners, other, lookup, used);
    EasesSwap(lookup, used, at, i, j);
  }

  lemma EasesSwap(lookup: string -> real, used: set<string>, at: seq<string>, i: nat, j: nat)
    requires i < |at| && j < |at|
    ensures Eases(lookup, used, Rearrangement.Swapped(at, i, j)) == Rearrangement.Swapped(Eases(lookup, used, at), i, j)
  {
  }
}
