/**
 * The pure part of the first-mover game: the two strategies, the fixed payoff
 * table, the strict-comparison verdict, the counts a run accumulates (stated as
 * functions of the rounds played since the last reset), the rolling win-rate
 * history, and the end-of-run summary.
 */
module Game {
  import opened Wrappers

  datatype Strategy = Early | Wait

  /** The three keys of the results dictionary. */
  datatype Verdict = AlphaWins | BetaWins | Draw

  /** An ordered (alpha, beta) strategy pair: a key of the outcome matrix. */
  type Pair = (Strategy, Strategy)

  /** The strategy list, in its declared order. */
  const Strategies: seq<Strategy> := [Early, Wait]

  /** The results dictionary's keys, in insertion order. */
  const Verdicts: seq<Verdict> := [AlphaWins, BetaWins, Draw]

  /** The outcome matrix's keys, in the insertion order of the comprehension
      that builds it: alpha strategy outer, beta strategy inner. */
  const Pairs: seq<Pair> := [(Early, Early), (Early, Wait), (Wait, Early), (Wait, Wait)]

  /** Position of a strategy in the strategy list. */
  function StrategyIndex(s: Strategy): (i: nat)
    ensures i < |Strategies| && Strategies[i] == s
  {
    match s
    case Early => 0
    case Wait => 1
  }

  /** Position of a verdict among the results dictionary's keys. */
  function VerdictIndex(v: Verdict): (i: nat)
    ensures i < |Verdicts| && Verdicts[i] == v
  {
    match v
    case AlphaWins => 0
    case BetaWins => 1
    case Draw => 2
  }

  /** Position of a pair among the outcome matrix's keys. */
  function PairIndex(alpha: Strategy, beta: Strategy): (i: nat)
    ensures i < |Pairs| && Pairs[i] == (alpha, beta)
  {
    var i := 2 * StrategyIndex(alpha) + StrategyIndex(beta);
    assert Pairs[i] == (Strategies[i / 2], Strategies[i % 2]);
    i
  }

  /** The (alpha score, beta score) table; it is defined for every pair. */
  function Payoff(alpha: Strategy, beta: Strategy): (int, int)
  {
    match (alpha, beta)
    case (Early, Early) => (3, 3)
    case (Early, Wait) => (5, 1)
    case (Wait, Early) => (1, 5)
    case (Wait, Wait) => (4, 4)
  }

  /** Strict comparison of the two scores; equal scores are a draw. */
  function Judge(alphaScore: int, betaScore: int): (v: Verdict)
    ensures v == AlphaWins <==> alphaScore > betaScore
    ensures v == BetaWins <==> betaScore > alphaScore
    ensures v == Draw <==> alphaScore == betaScore
  {
    if alphaScore > betaScore then AlphaWins
    else if betaScore > alphaScore then BetaWins
    else Draw
  }

  /** The verdict of one round: with the fixed table, whoever plays Early
      against Wait wins, and equal strategies draw. */
  function Resolve(alpha: Strategy, beta: Strategy): (v: Verdict)
    ensures v == AlphaWins <==> alpha == Early && beta == Wait
    ensures v == BetaWins <==> alpha == Wait && beta == Early
    ensures v == Draw <==> alpha == beta
  {
    var (alphaScore, betaScore) := Payoff(alpha, beta);
    Judge(alphaScore, betaScore)
  }

  function Sum(s: seq<nat>): nat
  {
    if s == [] then 0 else Sum(s[..|s| - 1]) + s[|s| - 1]
  }

  /** Incrementing one entry raises the sum by exactly one. */
  lemma {:induction false} SumIncrement(s: seq<nat>, i: nat)
    requires i < |s|
    ensures Sum(s[i := s[i] + 1]) == Sum(s) + 1
  {
    var t := s[i := s[i] + 1];
    var n := |s| - 1;
    if i == n {
      assert t[..n] == s[..n];
    } else {
      assert t[..n] == s[..n][i := s[i] + 1];
      SumIncrement(s[..n], i);
    }
  }

  lemma SumOfThree(a: nat, b: nat, c: nat)
    ensures Sum([a, b, c]) == a + b + c
  {
    assert [a][..0] == [];
    assert Sum([a]) == a;
    assert [a, b][..1] == [a];
    assert Sum([a, b]) == a + b;
    assert [a, b, c][..2] == [a, b];
  }

  lemma SumOfFour(a: nat, b: nat, c: nat, d: nat)
    ensures Sum([a, b, c, d]) == a + b + c + d
  {
    assert [a, b, c, d][..3] == [a, b, c];
    SumOfThree(a, b, c);
  }

  // ---- Counts, as functions of the rounds played since the last reset ----

  /** Number of rounds whose verdict is v. */
  function VerdictCount(rounds: seq<Pair>, v: Verdict): nat
  {
    if rounds == [] then 0
    else
      var last := rounds[|rounds| - 1];
      VerdictCount(rounds[..|rounds| - 1], v) + if Resolve(last.0, last.1) == v then 1 else 0
  }

  /** Number of rounds in which the pair p was drawn. */
  function PairCount(rounds: seq<Pair>, p: Pair): nat
  {
    if rounds == [] then 0
    else PairCount(rounds[..|rounds| - 1], p) + if rounds[|rounds| - 1] == p then 1 else 0
  }

  /** The results dictionary after the given rounds, in key order. */
  function Tally(rounds: seq<Pair>): (t: seq<nat>)
  {
    [VerdictCount(rounds, AlphaWins), VerdictCount(rounds, BetaWins), VerdictCount(rounds, Draw)]
  }

  /** The outcome matrix after the given rounds, in key order. */
  function Occurrences(rounds: seq<Pair>): (m: seq<nat>)
  {
    [PairCount(rounds, Pairs[0]), PairCount(rounds, Pairs[1]),
     PairCount(rounds, Pairs[2]), PairCount(rounds, Pairs[3])]
  }

  /** One more round raises exactly the counter of its verdict by one. */
  lemma TallySnoc(rounds: seq<Pair>, alpha: Strategy, beta: Strategy)
    ensures var i := VerdictIndex(Resolve(alpha, beta));
            Tally(rounds + [(alpha, beta)]) == Tally(rounds)[i := Tally(rounds)[i] + 1]
  {
    assert (rounds + [(alpha, beta)])[..|rounds|] == rounds;
  }

  /** One more round raises exactly the cell of its pair by one. */
  lemma OccurrencesSnoc(rounds: seq<Pair>, alpha: Strategy, beta: Strategy)
    ensures var i := PairIndex(alpha, beta);
            Occurrences(rounds + [(alpha, beta)]) == Occurrences(rounds)[i := Occurrences(rounds)[i] + 1]
  {
    assert (rounds + [(alpha, beta)])[..|rounds|] == rounds;
  }

  /** The three counters add up to the number of rounds played. */
  lemma {:induction false} TallyTotal(rounds: seq<Pair>)
    ensures Sum(Tally(rounds)) == |rounds|
  {
    if rounds == [] {
      SumOfThree(0, 0, 0);
    } else {
      var prefix, last := rounds[..|rounds| - 1], rounds[|rounds| - 1];
      assert rounds == prefix + [last];
      TallyTotal(prefix);
      TallySnoc(prefix, last.0, last.1);
      SumIncrement(Tally(prefix), VerdictIndex(Resolve(last.0, last.1)));
    }
  }

  /** The four matrix cells add up to the number of rounds played. */
  lemma {:induction false} OccurrencesTotal(rounds: seq<Pair>)
    ensures Sum(Occurrences(rounds)) == |rounds|
  {
    if rounds == [] {
      SumOfFour(0, 0, 0, 0);
    } else {
      var prefix, last := rounds[..|rounds| - 1], rounds[|rounds| - 1];
      assert rounds == prefix + [last];
      OccurrencesTotal(prefix);
      OccurrencesSnoc(prefix, last.0, last.1);
      SumIncrement(Occurrences(prefix), PairIndex(last.0, last.1));
    }
  }

  /** The outcome matrix determines the results: Alpha wins exactly when the
      pair is (Early, Wait), Beta exactly when it is (Wait, Early), and the
      diagonal cells are the draws. */
  lemma {:induction false} TallyFromOccurrences(rounds: seq<Pair>)
    ensures var m := Occurrences(rounds);
            Tally(rounds) == [m[1], m[2], m[0] + m[3]]
  {
    if rounds != [] {
      TallyFromOccurrences(rounds[..|rounds| - 1]);
    }
  }

  // ---- Rolling win-rate history ----

  /** One entry of the three win-rate lists. */
  datatype WinRates = WinRates(alpha: real, beta: real, draw: real)

  /** count / total * 100, in exact arithmetic. */
  function Percent(count: nat, total: nat): real
    requires total > 0
  {
    count as real / total as real * 100.0
  }

  /** The entry appended after a round: the post-round counters divided by
      the divisor. */
  function Rates(counts: seq<nat>, divisor: nat): WinRates
    requires |counts| == 3 && divisor > 0
  {
    WinRates(Percent(counts[0], divisor), Percent(counts[1], divisor), Percent(counts[2], divisor))
  }

  /** The history after the given rounds. The divisor of each entry is the
      round count read BEFORE that round's increments, and no entry is
      appended while that count is zero. */
  function History(rounds: seq<Pair>): seq<WinRates>
  {
    if |rounds| <= 1 then []
    else History(rounds[..|rounds| - 1]) + [Rates(Tally(rounds), |rounds| - 1)]
  }

  /** One more round appends one entry, except after a reset. */
  lemma HistorySnoc(rounds: seq<Pair>, alpha: Strategy, beta: Strategy)
    ensures History(rounds + [(alpha, beta)]) ==
            if rounds == [] then [] else History(rounds) + [Rates(Tally(rounds + [(alpha, beta)]), |rounds|)]
  {
    assert (rounds + [(alpha, beta)])[..|rounds|] == rounds;
  }

  /** After n >= 1 rounds the history holds n - 1 entries. */
  lemma {:induction false} HistoryLength(rounds: seq<Pair>)
    ensures |History(rounds)| == if rounds == [] then 0 else |rounds| - 1
  {
    if |rounds| > 1 {
      HistoryLength(rounds[..|rounds| - 1]);
    }
  }

  /** Entry k was appended by round k + 2 and divides that round's
      post-increment counters by k + 1. */
  lemma {:induction false} HistoryAt(rounds: seq<Pair>, k: nat)
    requires k < |History(rounds)|
    ensures |rounds| >= k + 2
    ensures History(rounds)[k] == Rates(Tally(rounds[..k + 2]), k + 1)
  {
    HistoryLength(rounds);
    var prefix := rounds[..|rounds| - 1];
    HistoryLength(prefix);
    if k < |History(prefix)| {
      HistoryAt(prefix, k);
      assert prefix[..k + 2] == rounds[..k + 2];
    } else {
      assert rounds[..k + 2] == rounds;
    }
  }

  /** An entry's three values add up to 100 * n / (n - 1), where n is the
      round that appended it; this is always more than 100. */
  lemma HistoryEntrySum(rounds: seq<Pair>, k: nat)
    requires k < |History(rounds)|
    ensures var e := History(rounds)[k];
            e.alpha + e.beta + e.draw == 100.0 * (k + 2) as real / (k + 1) as real
    ensures var e := History(rounds)[k];
            e.alpha + e.beta + e.draw > 100.0
  {
    HistoryAt(rounds, k);
    var t := Tally(rounds[..k + 2]);
    TallyTotal(rounds[..k + 2]);
    SumOfThree(t[0], t[1], t[2]);
    assert t == [t[0], t[1], t[2]];
    RatesSum(t, k + 1, k + 2);
  }

  /** The entry's three values share one divisor, so they add up to the
      total count over that divisor. */
  lemma RatesSum(counts: seq<nat>, divisor: nat, total: nat)
    requires |counts| == 3 && divisor > 0
    requires counts[0] + counts[1] + counts[2] == total
    ensures var e := Rates(counts, divisor);
            e.alpha + e.beta + e.draw == 100.0 * total as real / divisor as real
    ensures total > divisor ==>
              var e := Rates(counts, divisor);
              e.alpha + e.beta + e.draw > 100.0
  {
    PercentsAdd(counts[0], counts[1], counts[2], divisor);
    var d := divisor as real;
    var n := total as real;
    assert n / d * 100.0 == 100.0 * n / d;
    if total > divisor {
      assert n / d > 1.0;
    }
  }

  lemma PercentsAdd(a: nat, b: nat, c: nat, d: nat)
    requires d > 0
    ensures Percent(a, d) + Percent(b, d) + Percent(c, d) == (a + b + c) as real / d as real * 100.0
  {
  }

  // ---- End-of-run summary ----

  /** The index of the first maximal count: a later count replaces the
      current best only when strictly larger. */
  function MostCommon(counts: seq<nat>): (k: nat)
    requires |counts| > 0
    ensures k < |counts|
    ensures forall j :: 0 <= j < |counts| ==> counts[j] <= counts[k]
    ensures forall j :: 0 <= j < k ==> counts[j] < counts[k]
  {
    if |counts| == 1 then 0
    else
      var best := MostCommon(counts[..|counts| - 1]);
      if counts[|counts| - 1] > counts[best] then |counts| - 1 else best
  }

  datatype Summary = Summary(
    total: nat,
    counts: seq<nat>,
    percents: seq<real>,
    mostCommon: Pair,
    mostCommonCount: nat)

  /** The summary's percentage line divides by the total; with no round
      played it raises. */
  datatype SummaryError = DivisionByZero

  /** The summary printed when the cap is reached: each outcome's share of
      the total as a percentage, and the most frequent pair with its count. */
  function Summarize(results: seq<nat>, outcomes: seq<nat>): (r: Result<Summary, SummaryError>)
    requires |results| == 3 && |outcomes| == 4
    ensures r.Failure? <==> Sum(results) == 0
    ensures r.Success? ==> r.value.total == Sum(results) && r.value.counts == results
    ensures r.Success? ==> |r.value.percents| == 3
    ensures r.Success? ==>
              forall i :: 0 <= i < 3 ==> r.value.percents[i] * r.value.total as real == results[i] as real * 100.0
    ensures r.Success? ==> r.value.percents[0] + r.value.percents[1] + r.value.percents[2] == 100.0
    ensures r.Success? ==> r.value.mostCommonCount == outcomes[PairIndex(r.value.mostCommon.0, r.value.mostCommon.1)]
    ensures r.Success? ==> forall j :: 0 <= j < 4 ==> outcomes[j] <= r.value.mostCommonCount
    ensures r.Success? ==>
              forall j :: 0 <= j < PairIndex(r.value.mostCommon.0, r.value.mostCommon.1) ==> outcomes[j] < r.value.mostCommonCount
  {
    var total := Sum(results);
    if total == 0 then Failure(DivisionByZero)
    else
      var percents := [Percent(results[0], total), Percent(results[1], total), Percent(results[2], total)];
      var k := MostCommon(outcomes);
      SumOfThree(results[0], results[1], results[2]);
      assert results == [results[0], results[1], results[2]];
      PercentsAdd(results[0], results[1], results[2], total);
      assert PairIndex(Pairs[k].0, Pairs[k].1) == k;
      Success(Summary(total, results, percents, Pairs[k], outcomes[k]))
  }
}
