// What the balancer's distances mean in hashrate: how far each coin is from its share of the total, and when a round moves anyone.
module BalancerGap {
  import opened Balancer
  import opened BalancerRuns

  // ---- Hashrate on coins ----

  ghost predicate NoneNegative(miners: seq<Miner>) {
    forall i :: 0 <= i < |miners| ==> miners[i].hash >= 0.0
  }

  function SumOn(miners: seq<Miner>, at: seq<string>, coins: seq<string>): real
    requires |at| == |miners|
    decreases |coins|
  {
    if coins == [] then 0.0 else SumOn(miners, at, coins[..|coins| - 1]) + On(miners, at, coins[|coins| - 1])
  }

  ghost predicate EachOnce(coins: seq<string>) {
    forall i, j :: 0 <= i < j < |coins| ==> coins[i] != coins[j]
  }

  lemma {:induction false} OneMinerMore(miners: seq<Miner>, at: seq<string>, coins: seq<string>)
    requires |at| == |miners| > 0 && EachOnce(coins)
    ensures var n := |miners| - 1;
            SumOn(miners, at, coins) == SumOn(miners[..n], at[..n], coins) + if at[n] in coins then miners[n].hash else 0.0
    decreases |coins|
  {
    if coins != [] {
      var front, last := coins[..|coins| - 1], coins[|coins| - 1];
      OneMinerMore(miners, at, front);
      assert coins == front + [last];
    }
  }

  lemma {:induction false} NobodyNowhere(coins: seq<string>)
    ensures SumOn([], [], coins) == 0.0
    decreases |coins|
  {
    if coins != [] {
      NobodyNowhere(coins[..|coins| - 1]);
    }
  }

  /** The coins share all of the hashrate among them, whatever miner is where. */
  lemma {:induction false} CoinsShareAll(miners: seq<Miner>, at: seq<string>, coins: seq<string>)
    requires |at| == |miners| && EachOnce(coins) && forall i :: 0 <= i < |at| ==> at[i] in coins
    ensures SumOn(miners, at, coins) == Total(miners)
    decreases |miners|
  {
    if miners == [] {
      NobodyNowhere(coins);
    } else {
      var n := |miners| - 1;
      CoinsShareAll(miners[..n], at[..n], coins);
      OneMinerMore(miners, at, coins);
    }
  }

  /** A move takes the miner's hashrate from the one coin to the other. */
  lemma {:induction false} MoveShifts(miners: seq<Miner>, at: seq<string>, m: Move, coin: string)
    requires |at| == |miners| && m.miner < |at|
    ensures On(miners, at[m.miner := m.coin], coin)
         == On(miners, at, coin) + (if m.coin == coin then miners[m.miner].hash else 0.0)
            - (if at[m.miner] == coin then miners[m.miner].hash else 0.0)
  {
    var n := |miners| - 1;
    if m.miner == n {
      assert at[m.miner := m.coin][..n] == at[..n];
    } else {
      assert at[m.miner := m.coin][..n] == at[..n][m.miner := m.coin];
      MoveShifts(miners[..n], at[..n], m, coin);
    }
  }

  lemma {:induction false} OnNotNegative(miners: seq<Miner>, at: seq<string>, coin: string)
    requires |at| == |miners| && NoneNegative(miners)
    ensures On(miners, at, coin) >= 0.0
  {
    if miners != [] {
      var n := |miners| - 1;
      OnNotNegative(miners[..n], at[..n], coin);
    }
  }

  // ---- Distance in hashrate ----

  /** The share of all hashrate a coin is meant to have: none outside the target. */
  function Share(f: Fleet, coin: string): real {
    if coin in f.target then f.target[coin] else 0.0
  }

  function Product(a: real, b: real): real {
    a * b
  }

  /** By how much the hashrate on a coin is off its share. */
  function Off(f: Fleet, at: seq<string>, coin: string): real
    requires |at| == |f.miners|
  {
    On(f.miners, at, coin) - Product(Share(f, coin), Total(f.miners))
  }

  function SumOff(f: Fleet, at: seq<string>, coins: seq<string>): real
    requires |at| == |f.miners|
  {
    if coins == [] then 0.0 else SumOff(f, at, coins[..|coins| - 1]) + Square(Off(f, at, coins[|coins| - 1]))
  }

  lemma QuotientOff(have: real, share: real, total: real)
    requires total > 0.0
    ensures Product(have / total - share, total) == have - Product(share, total)
  {
  }

  lemma GapIsOff(f: Fleet, at: seq<string>, coin: string)
    requires |at| == |f.miners| && Total(f.miners) > 0.0 && NoneNegative(f.miners)
    ensures Product(Gap(f, at, coin), Total(f.miners)) == Off(f, at, coin)
  {
    OnNotNegative(f.miners, at, coin);
    QuotientOff(On(f.miners, at, coin), Share(f, coin), Total(f.miners));
  }

  lemma ProductOrder(a: real, b: real, p: real)
    requires p > 0.0
    ensures a <= b <==> Product(a, p) <= Product(b, p)
  {
    assert Product(b, p) - Product(a, p) == Product(b - a, p);
    Signs(b - a, p);
  }

  lemma Signs(d: real, p: real)
    requires p > 0.0
    ensures d >= 0.0 <==> Product(d, p) >= 0.0
    ensures d == 0.0 <==> Product(d, p) == 0.0
  {
  }

  lemma AbsProduct(x: real, p: real)
    requires p > 0.0
    ensures Product(Abs(x), p) == Abs(Product(x, p))
  {
    Signs(x, p);
  }

  lemma GapWithin(f: Fleet, at: seq<string>, coin: string, x: real)
    requires |at| == |f.miners| && Total(f.miners) > 0.0 && NoneNegative(f.miners)
    ensures Abs(Gap(f, at, coin)) <= x <==> Abs(Off(f, at, coin)) <= Product(x, Total(f.miners))
  {
    GapIsOff(f, at, coin);
    AbsProduct(Gap(f, at, coin), Total(f.miners));
    ProductOrder(Abs(Gap(f, at, coin)), x, Total(f.miners));
  }

  /** Every coin looked at has hashrate within a part `x` of the total from its share of the total. */
  predicate AllWithin(f: Fleet, at: seq<string>, coins: seq<string>, x: real)
    requires |at| == |f.miners|
  {
    forall k :: 0 <= k < |coins| ==> Abs(Off(f, at, coins[k])) <= Product(x, Total(f.miners))
  }

  lemma {:induction false} WorstGapWithin(f: Fleet, at: seq<string>, coins: seq<string>, x: real)
    requires |at| == |f.miners| && Total(f.miners) > 0.0 && NoneNegative(f.miners) && x >= 0.0
    ensures WorstGap(f, at, coins) <= x <==> AllWithin(f, at, coins, x)
    decreases |coins|
  {
    if coins != [] {
      var front, last := coins[..|coins| - 1], coins[|coins| - 1];
      WorstGapWithin(f, at, front, x);
      GapWithin(f, at, last, x);
      assert coins == front + [last];
    }
  }

  /** The worst deviation of a split is at most `x` exactly when the hashrate on every coin looked at is within that part of the
      total from the coin's share. */
  lemma WorstIff(f: Fleet, at: seq<string>, x: real)
    requires |at| == |f.miners| && Total(f.miners) > 0.0 && NoneNegative(f.miners) && x >= 0.0
    ensures Worst(f, at) <= x <==> AllWithin(f, at, f.coins, x)
  {
    WorstGapWithin(f, at, f.coins, x);
  }

  lemma SquareProduct(x: real, p: real)
    ensures Product(Square(x), Square(p)) == Square(Product(x, p))
  {
  }

  lemma ProductSum(a: real, b: real, p: real)
    ensures Product(a + b, p) == Product(a, p) + Product(b, p)
  {
  }

  lemma {:induction false} SumOfSquaresIsOff(f: Fleet, at: seq<string>, coins: seq<string>)
    requires |at| == |f.miners| && Total(f.miners) > 0.0 && NoneNegative(f.miners)
    ensures Product(SumOfSquares(f, at, coins), Square(Total(f.miners))) == SumOff(f, at, coins)
    decreases |coins|
  {
    if coins != [] {
      var front, last := coins[..|coins| - 1], coins[|coins| - 1];
      var p := Square(Total(f.miners));
      SumOfSquaresIsOff(f, at, front);
      ProductSum(SumOfSquares(f, at, front), Square(Gap(f, at, last)), p);
      SquareProduct(Gap(f, at, last), Total(f.miners));
      GapIsOff(f, at, last);
    }
  }

  lemma SquarePositive(p: real)
    requires p > 0.0
    ensures Square(p) > 0.0
  {
    Signs(p, p);
    assert Product(p, p) == Square(p);
  }

  lemma SquareZero(x: real)
    ensures Square(x) == 0.0 <==> x == 0.0
  {
    if x > 0.0 {
      SquarePositive(x);
    } else if x < 0.0 {
      SquarePositive(-x);
      SquareProduct(-1.0, x);
      assert Product(-1.0, x) == -x && Square(-1.0) == 1.0 && Product(1.0, Square(x)) == Square(x);
    }
  }

  lemma {:induction false} SumOffZero(f: Fleet, at: seq<string>, coins: seq<string>)
    requires |at| == |f.miners|
    ensures SumOff(f, at, coins) >= 0.0
    ensures SumOff(f, at, coins) == 0.0 <==> forall k :: 0 <= k < |coins| ==> Off(f, at, coins[k]) == 0.0
    decreases |coins|
  {
    if coins != [] {
      var front, last := coins[..|coins| - 1], coins[|coins| - 1];
      SumOffZero(f, at, front);
      SquareZero(Off(f, at, last));
      assert coins == front + [last];
    }
  }

  /** The score is nothing exactly when every coin looked at has its very share of the hashrate. */
  lemma ScoreZeroIff(f: Fleet, at: seq<string>)
    requires |at| == |f.miners| && Total(f.miners) > 0.0 && NoneNegative(f.miners)
    ensures Score(f, at) == 0.0 <==> forall k :: 0 <= k < |f.coins| ==> Off(f, at, f.coins[k]) == 0.0
  {
    SumOfSquaresIsOff(f, at, f.coins);
    SquarePositive(Total(f.miners));
    Signs(Score(f, at), Square(Total(f.miners)));
    SumOffZero(f, at, f.coins);
  }

  // ---- Which moves help ----

  /** A move helps exactly when it takes a free miner with hashrate to another coin of the target that it can reach, and lowers the
      sum of the squares of what the coins are off by, by more than the least gain. */
  lemma HelpsIff(f: Fleet, at: seq<string>, movable: seq<bool>, m: Move)
    requires |at| == |movable| == |f.miners| && Total(f.miners) > 0.0 && NoneNegative(f.miners)
    ensures Helps(f, at, movable, m) <==>
              && m.miner < |at| && movable[m.miner] && f.miners[m.miner].hash > 0.0
              && m.coin in f.target && m.coin != at[m.miner] && m.coin in f.miners[m.miner].alive
              && SumOff(f, at[m.miner := m.coin], f.coins)
                 < SumOff(f, at, f.coins) - Product(0.000000001, Square(Total(f.miners)))
  {
    if m.miner < |at| {
      var next, p := at[m.miner := m.coin], Square(Total(f.miners));
      SumOfSquaresIsOff(f, at, f.coins);
      SumOfSquaresIsOff(f, next, f.coins);
      SquarePositive(Total(f.miners));
      ProductSum(Score(f, at) - MIN_GAIN, MIN_GAIN, p);
      ProductOrder(Score(f, at) - MIN_GAIN, Score(f, next), p);
    }
  }

  // ---- When a round moves anyone ----

  lemma NoHashrateNoMoves(f: Fleet, at: seq<string>, movable: seq<bool>, moves: seq<Move>, budget: nat)
    requires |at| == |movable| == |f.miners| && RoundFrom(f, at, movable, moves, budget) && Total(f.miners) <= 0.0
    ensures moves == []
  {
  }

  /** A round moves someone exactly when some coin is more than 5% of the hashrate off its share and some move helps. */
  lemma MovesIff(f: Fleet, at: seq<string>, movable: seq<bool>, moves: seq<Move>, budget: nat)
    requires |at| == |movable| == |f.miners| && Total(f.miners) > 0.0 && NoneNegative(f.miners)
    requires RoundFrom(f, at, movable, moves, budget) && budget > 0
    ensures moves != [] <==>
              && !AllWithin(f, at, f.coins, 0.05)
              && (exists m :: Helps(f, at, movable, m))
  {
    WorstIff(f, at, BALANCE_TOLERANCE);
    if moves != [] {
      assert Helps(f, at, movable, moves[0]);
    }
  }

  lemma {:induction false} RoundsAsk(takes: Taking, stops: Stopping, asked: Taking, allowed: Move -> bool, at: seq<string>,
                                     movable: seq<bool>, moves: seq<Move>, budget: nat)
    requires |at| == |movable| && Rounds(takes, stops, at, movable, moves, budget) && OnlyTakes(takes, asked)
    requires forall other, free, m :: asked(other, free, m) ==> allowed(m)
    ensures forall i :: 0 <= i < |moves| ==> allowed(moves[i])
    decreases |moves|
  {
    if moves != [] {
      var m := moves[0];
      assert asked(at, movable, m);
      RoundsAsk(takes, stops, asked, allowed, at[m.miner := m.coin], movable[m.miner := false], moves[1..], budget - 1);
      assert moves == [m] + moves[1..];
    }
  }

  predicate Reachable(f: Fleet, m: Move) {
    m.miner < |f.miners| && f.miners[m.miner].hash > 0.0 && m.coin in f.target && m.coin in f.miners[m.miner].alive
  }

  lemma TakesReachable(f: Fleet)
    ensures OnlyTakes(TakesOf(f), (at, movable, m: Move) => Reachable(f, m))
  {
  }

  /** Every move of a round is of a miner with hashrate, to a coin of the target that it can reach. */
  lemma MovesReachable(f: Fleet, at: seq<string>, movable: seq<bool>, moves: seq<Move>, budget: nat)
    requires |at| == |movable| == |f.miners| && RoundFrom(f, at, movable, moves, budget)
    ensures forall i :: 0 <= i < |moves| ==> Reachable(f, moves[i])
  {
    TakesReachable(f);
    RoundsAsk(TakesOf(f), StopsOf(f), (other, free, m: Move) => Reachable(f, m), m => Reachable(f, m), at, movable, moves,
              budget);
  }

  /** The first move of a round is within 0.0004 of the best, and fits no worse than any other move that is. */
  lemma FirstMoveFits(f: Fleet, at: seq<string>, movable: seq<bool>, moves: seq<Move>, budget: nat)
    requires |at| == |movable| == |f.miners| && RoundFrom(f, at, movable, moves, budget) && moves != []
    ensures Helps(f, at, movable, moves[0])
    ensures forall o :: Helps(f, at, movable, o) ==> After(f, at, moves[0]) <= After(f, at, o) + 0.0004
    ensures forall o :: Helps(f, at, movable, o) && (forall p :: Helps(f, at, movable, p) ==> After(f, at, o) <= After(f, at, p) + 0.0004)
              ==> FitAfter(f, at, moves[0]) <= FitAfter(f, at, o)
  {
    assert Chosen(f, at, movable, moves[0]);
    forall o | Helps(f, at, movable, o) && (forall p :: Helps(f, at, movable, p) ==> After(f, at, o) <= After(f, at, p) + 0.0004)
      ensures FitAfter(f, at, moves[0]) <= FitAfter(f, at, o)
    {
      assert NearBest(f, at, movable, o);
    }
  }

  /** No round that happens has more than three moves. */
  lemma ThreeAtMost(f: Fleet, book: Book, r: Round)
    requires Happens(f, book, r)
    ensures |r.moves| <= 3
  {
    var was := Kept(book, r.gone);
    MovesFree(f, StartAt(was, f, r.active), Unsettled(was, f, r.now), r.moves, MAX_MOVES);
  }
}
