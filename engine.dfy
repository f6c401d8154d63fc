/**
 * The dashboard's round engine: the module-level counters, the outcome
 * matrix, the win-rate history, the run flag and the seed, held by one
 * object, with the animation tick and the button handlers as its methods.
 */
module Simulation {
  import opened Wrappers
  import opened Game

  /** The round cap and the initial seed the dashboard is configured with. */
  const NumGames: nat := 1000
  const DefaultSeed: int := 22

  /** What one animation tick did: nothing while paused; at the cap, stop and
      report the summary it prints; otherwise play the drawn round. */
  datatype Tick =
    | Paused
    | Finished(summary: Result<Summary, SummaryError>)
    | Played(alpha: Strategy, beta: Strategy, verdict: Verdict)

  class Engine {
    /** Counters for Alpha wins, Beta wins and Draw, in that order. */
    var results: seq<nat>
    /** Counts of (Early, Early), (Early, Wait), (Wait, Early), (Wait, Wait). */
    var outcomes: seq<nat>
    /** The three rolling win-rate lists, entry by entry. */
    var history: seq<WinRates>
    var running: bool
    var seed: int
    const cap: nat

    /** The pairs drawn since the last reset, oldest first. */
    ghost var rounds: seq<Pair>

    /** Every stored count and rate is the one the rounds played determine,
        and no more rounds than the cap have been played. */
    ghost predicate Valid()
      reads this
    {
      && results == Tally(rounds)
      && outcomes == Occurrences(rounds)
      && history == History(rounds)
      && |rounds| <= cap
    }

    /** The state at start-up: all counts zero, histories empty, paused. */
    constructor (cap: nat, seed: int)
      ensures Valid()
      ensures this.cap == cap && this.seed == seed && !running
      ensures rounds == [] && results == [0, 0, 0] && outcomes == [0, 0, 0, 0] && history == []
    {
      this.cap := cap;
      this.seed := seed;
      running := false;
      results := [0, 0, 0];
      outcomes := [0, 0, 0, 0];
      history := [];
      rounds := [];
    }

    /** The counters and the matrix both add up to the rounds played. */
    lemma CountsAgree()
      requires Valid()
      ensures Sum(results) == Sum(outcomes) == |rounds| <= cap
    {
      TallyTotal(rounds);
      OccurrencesTotal(rounds);
    }

    /** At the cap, the summary fails with a division by zero exactly when the
        cap is zero; otherwise its total is the cap. */
    lemma SummaryAtCap()
      requires Valid() && |rounds| == cap
      ensures Summarize(results, outcomes).Failure? <==> cap == 0
      ensures cap > 0 ==> Summarize(results, outcomes).value.total == cap
    {
      CountsAgree();
    }

    /** One animation tick, given the strategies the two players drew. */
    method Step(alpha: Strategy, beta: Strategy) returns (t: Tick)
      requires Valid()
      modifies this
      ensures Valid()
      ensures seed == old(seed)
      ensures !old(running) ==> t == Paused && unchanged(this)
      ensures old(running) && |old(rounds)| >= cap ==>
                && !running
                && rounds == old(rounds) && results == old(results)
                && outcomes == old(outcomes) && history == old(history)
                && t == Finished(Summarize(results, outcomes))
      ensures old(running) && |old(rounds)| < cap ==>
                var v := VerdictIndex(Resolve(alpha, beta));
                var p := PairIndex(alpha, beta);
                && running
                && t == Played(alpha, beta, Resolve(alpha, beta))
                && rounds == old(rounds) + [(alpha, beta)]
                && outcomes == old(outcomes)[p := old(outcomes)[p] + 1]
                && results == old(results)[v := old(results)[v] + 1]
                && history == if old(rounds) == [] then old(history)
                              else old(history) + [Rates(results, |old(rounds)|)]
    {
      if !running {
        return Paused;
      }
      var total := Sum(results);
      CountsAgree();
      if total >= cap {
        running := false;
        return Finished(Summarize(results, outcomes));
      }
      var p := PairIndex(alpha, beta);
      var nextOutcomes := outcomes[p := outcomes[p] + 1];
      var (alphaScore, betaScore) := Payoff(alpha, beta);
      var v := VerdictIndex(Judge(alphaScore, betaScore));
      var nextResults := results[v := results[v] + 1];
      var nextHistory := history;
      if total > 0 {
        nextHistory := nextHistory + [Rates(nextResults, total)];
      }
      ghost var nextRounds := rounds + [(alpha, beta)];
      assert nextResults == Tally(nextRounds) by {
        TallySnoc(rounds, alpha, beta);
      }
      assert nextOutcomes == Occurrences(nextRounds) by {
        OccurrencesSnoc(rounds, alpha, beta);
      }
      assert nextHistory == History(nextRounds) by {
        HistorySnoc(rounds, alpha, beta);
      }
      outcomes, results, history, rounds := nextOutcomes, nextResults, nextHistory, nextRounds;
      t := Played(alpha, beta, Resolve(alpha, beta));
    }

    /** The play/pause button: flips the run flag and nothing else. */
    method Toggle()
      requires Valid()
      modifies this`running
      ensures Valid()
      ensures running == !old(running)
    {
      running := !running;
    }

    /** Zeroes every counter and cell and empties the history lists; leaves
        the run flag and the seed alone. */
    method ResetData()
      modifies this
      ensures Valid()
      ensures running == old(running) && seed == old(seed)
      ensures rounds == [] && results == [0, 0, 0] && outcomes == [0, 0, 0, 0] && history == []
    {
      results := [0, 0, 0];
      outcomes := [0, 0, 0, 0];
      history := [];
      rounds := [];
    }

    /** The reset button: pauses, then clears all data. The resulting state
        does not depend on the state before, so resetting twice is the same
        as resetting once. */
    method ResetSim()
      modifies this
      ensures Valid()
      ensures !running && seed == old(seed)
      ensures rounds == [] && results == [0, 0, 0] && outcomes == [0, 0, 0, 0] && history == []
    {
      running := false;
      ResetData();
    }

    /** The seed box: a text that parses as an integer becomes the seed and
        triggers a full reset; any other text changes nothing. */
    method UpdateSeed(parsed: Option<int>) returns (accepted: bool)
      requires Valid()
      modifies this
      ensures Valid()
      ensures accepted <==> parsed.Some?
      ensures !accepted ==> unchanged(this)
      ensures accepted ==>
                && seed == parsed.value && !running
                && rounds == [] && results == [0, 0, 0] && outcomes == [0, 0, 0, 0] && history == []
    {
      match parsed
      case None =>
        accepted := false;
      case Some(s) =>
        seed := s;
        ResetSim();
        accepted := true;
    }
  }
}
