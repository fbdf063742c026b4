/**
 * The game routes: settlement of a wheel spin, a lottery draw and a
 * scratch card against a random outcome given as input, the server's own
 * game log, and the history, leaderboard and daily statistics computed
 * from it.
 */
module GameRoutes {
  import opened Wrappers
  import opened Strings
  import opened Seqs
  import opened Sorting

  const WheelMultipliers: seq<real> := [2.0, 5.0, 0.5, 10.0, 1.0, 3.0]
  const WheelLabels: seq<string> := ["2x", "5x", "0.5x", "10x", "1x", "3x"]
  const MinBet: real := 1.0
  const LotteryPicks: nat := 6
  const LotteryMaxNumber: int := 49
  const LotteryWinMatches: nat := 4
  const LotteryJackpotFactor: real := 100.0
  const ScratchPositions: nat := 9
  const ScratchWinCount: nat := 2
  const ScratchPrizeFactor: real := 5.0
  const HistoryLimit: int := 50
  const LeaderboardSize: int := 20

  /** The request schema shared by the three play routes. */
  datatype GameRequest = GameRequest(email: string, gameType: string, bet: real)

  predicate ValidRequest(req: GameRequest) {
    && ValidEmail(req.email)
    && (req.gameType == "wheel" || req.gameType == "lottery" || req.gameType == "scratch")
    && req.bet >= MinBet
  }

  /** The game-specific part of a log entry. */
  datatype Detail = WheelSegment(segment: string) | LotteryMatches(matches: nat) | ScratchCount(matchCount: nat)

  /** A game log entry; `timestamp` is the clock reading (ms) of the play. */
  datatype Entry = Entry(id: string, email: string, gameType: string, bet: real, winAmount: real,
                         isWin: bool, detail: Detail, timestamp: int)

  datatype WheelResult = WheelResult(isWin: bool, multiplier: real, bet: real, winAmount: real, segment: string)
  datatype LotteryResult = LotteryResult(isWin: bool, playerNumbers: seq<int>, winningNumbers: seq<int>,
                                         matches: nat, bet: real, winAmount: real)
  datatype ScratchResult = ScratchResult(isWin: bool, positions: seq<bool>, winningCount: nat, bet: real, winAmount: real)

  /** The log after a play, with the reply. */
  datatype Outcome<T> = Outcome(log: seq<Entry>, response: Response<T>)

  function EntryId(now: nat): string { "tx-" + Decimal(now) }

  /** `Math.floor`. */
  function Floor(x: real): (n: int)
    ensures n as real <= x < n as real + 1.0
  {
    x.Floor
  }

  /** The wheel payout for segment `index`: a win only above 1x, paying the floored product. */
  function WheelPayout(bet: real, index: nat): (w: (bool, real))
    requires index < |WheelMultipliers|
    ensures w.0 <==> WheelMultipliers[index] > 1.0
    ensures w.0 ==> w.1 == Floor(bet * WheelMultipliers[index]) as real
    ensures !w.0 ==> w.1 == 0.0
    ensures bet >= MinBet && w.0 ==> 2.0 * bet - 1.0 < w.1 <= 10.0 * bet
  {
    var m := WheelMultipliers[index];
    var isWin := m > 1.0;
    (isWin, if isWin then Floor(bet * m) as real else 0.0)
  }

  /** playSpinWheel in games.ts, for the segment `index` the random draw picked. */
  function WheelPlay(log: seq<Entry>, req: GameRequest, index: nat, now: nat): (o: Outcome<WheelResult>)
    requires index < |WheelMultipliers|
    ensures !ValidRequest(req) ==> o == Outcome(log, Error(400, "Invalid request"))
    ensures ValidRequest(req) ==>
      && o.response.IsOk()
      && |o.log| == |log| + 1 && o.log[..|log|] == log
      && var e := o.log[|log|]; var r := o.response.body;
      && e.id == EntryId(now) && e.email == req.email && e.gameType == "wheel" && e.timestamp == now
      && e.detail == WheelSegment(r.segment)
      && e.bet == r.bet == req.bet && e.winAmount == r.winAmount && e.isWin == r.isWin
      && (r.isWin, r.winAmount) == WheelPayout(req.bet, index)
      && r.multiplier == WheelMultipliers[index] && r.segment == WheelLabels[index]
  {
    if !ValidRequest(req) then Outcome(log, Error(400, "Invalid request"))
    else
      var (isWin, amount) := WheelPayout(req.bet, index);
      var e := Entry(EntryId(now), req.email, "wheel", req.bet, amount, isWin, WheelSegment(WheelLabels[index]), now);
      Outcome(log + [e], Reply(200, WheelResult(isWin, WheelMultipliers[index], req.bet, amount, WheelLabels[index])))
  }

  /** A draw of six numbers from 1 to 49, as the route generates them. */
  predicate IsDraw(ns: seq<int>) {
    |ns| == LotteryPicks && forall i :: 0 <= i < |ns| ==> 1 <= ns[i] <= LotteryMaxNumber
  }

  /** The player's numbers that occur among the winning numbers, duplicates counted. */
  function Matches(player: seq<int>, winning: seq<int>): (n: nat)
    ensures n <= |player|
  {
    |Filter(player, (x: int) => x in winning)|
  }

  /** The lottery payout: a win from four matches on, paying `floor(bet * 100 * matches / 6)`. */
  function LotteryPayout(bet: real, matches: nat): (w: (bool, real))
    ensures w.0 <==> matches >= LotteryWinMatches
    ensures w.0 ==> w.1 == Floor(bet * (LotteryJackpotFactor * (matches as real / LotteryPicks as real))) as real
    ensures !w.0 ==> w.1 == 0.0
  {
    var isWin := matches >= LotteryWinMatches;
    var amount := if isWin then bet * (LotteryJackpotFactor * (matches as real / LotteryPicks as real)) else 0.0;
    (isWin, Floor(amount) as real)
  }

  /** A lottery win pays between 66 and 100 times the bet. */
  lemma LotteryPayoutBounds(bet: real, matches: nat)
    requires bet >= MinBet && LotteryWinMatches <= matches <= LotteryPicks
    ensures 66.0 * bet - 1.0 < LotteryPayout(bet, matches).1 <= 100.0 * bet
  {
    if matches == 4 {
      assert LotteryPayout(bet, matches) == LotteryPayout(bet, 4);
    } else if matches == 5 {
      assert LotteryPayout(bet, matches) == LotteryPayout(bet, 5);
    } else {
      assert LotteryPayout(bet, matches) == LotteryPayout(bet, 6);
    }
  }

  /** playLottery in games.ts, for the drawn player and winning numbers. */
  function LotteryPlay(log: seq<Entry>, req: GameRequest, player: seq<int>, winning: seq<int>, now: nat)
    : (o: Outcome<LotteryResult>)
    requires IsDraw(player) && IsDraw(winning)
    ensures !ValidRequest(req) ==> o == Outcome(log, Error(400, "Invalid request"))
    ensures ValidRequest(req) ==>
      && o.response.IsOk()
      && |o.log| == |log| + 1 && o.log[..|log|] == log
      && var e := o.log[|log|]; var r := o.response.body;
      && e.id == EntryId(now) && e.email == req.email && e.gameType == "lottery" && e.timestamp == now
      && e.detail == LotteryMatches(r.matches)
      && e.bet == r.bet == req.bet && e.winAmount == r.winAmount && e.isWin == r.isWin
      && r.matches == Matches(player, winning) <= LotteryPicks
      && (r.isWin, r.winAmount) == LotteryPayout(req.bet, r.matches)
      && r.playerNumbers == player && r.winningNumbers == winning
  {
    if !ValidRequest(req) then Outcome(log, Error(400, "Invalid request"))
    else
      var matches := Matches(player, winning);
      var (isWin, amount) := LotteryPayout(req.bet, matches);
      var e := Entry(EntryId(now), req.email, "lottery", req.bet, amount, isWin, LotteryMatches(matches), now);
      Outcome(log + [e], Reply(200, LotteryResult(isWin, player, winning, matches, req.bet, amount)))
  }

  predicate IsPrize(position: bool) { position }

  /** The number of revealed prize positions. */
  function Revealed(positions: seq<bool>): (n: nat)
    ensures n <= |positions|
  {
    |Filter(positions, IsPrize)|
  }

  /** The scratch-card payout: a win from two prize positions on, paying five times the bet. */
  function ScratchPayout(bet: real, count: nat): (w: (bool, real))
    ensures w.0 <==> count >= ScratchWinCount
    ensures w.1 == if w.0 then ScratchPrizeFactor * bet else 0.0
  {
    var isWin := count >= ScratchWinCount;
    (isWin, if isWin then bet * ScratchPrizeFactor else 0.0)
  }

  /** playScratchCard in games.ts, for the nine revealed positions. */
  function ScratchPlay(log: seq<Entry>, req: GameRequest, positions: seq<bool>, now: nat): (o: Outcome<ScratchResult>)
    requires |positions| == ScratchPositions
    ensures !ValidRequest(req) ==> o == Outcome(log, Error(400, "Invalid request"))
    ensures ValidRequest(req) ==>
      && o.response.IsOk()
      && |o.log| == |log| + 1 && o.log[..|log|] == log
      && var e := o.log[|log|]; var r := o.response.body;
      && e.id == EntryId(now) && e.email == req.email && e.gameType == "scratch" && e.timestamp == now
      && e.detail == ScratchCount(r.winningCount)
      && e.bet == r.bet == req.bet && e.winAmount == r.winAmount && e.isWin == r.isWin
      && r.winningCount == Revealed(positions) <= ScratchPositions
      && (r.isWin, r.winAmount) == ScratchPayout(req.bet, r.winningCount)
  {
    if !ValidRequest(req) then Outcome(log, Error(400, "Invalid request"))
    else
      var count := Revealed(positions);
      var (isWin, amount) := ScratchPayout(req.bet, count);
      var e := Entry(EntryId(now), req.email, "scratch", req.bet, amount, isWin, ScratchCount(count), now);
      Outcome(log + [e], Reply(200, ScratchResult(isWin, positions, count, req.bet, amount)))
  }

  function ForEmail(log: seq<Entry>, email: string): seq<Entry> {
    Filter(log, (e: Entry) => e.email == email)
  }

  function TimeKey(e: Entry): Option<real> { Some(e.timestamp as real) }

  /** getGameHistory in games.ts: one player's entries, newest first, at most 50. */
  function GameHistory(log: seq<Entry>, email: string): (r: Response<seq<Entry>>)
    ensures email == "" <==> r == Error(400, "Email required")
    ensures r.IsOk() ==>
      |r.body| == if |ForEmail(log, email)| < HistoryLimit then |ForEmail(log, email)| else HistoryLimit
    ensures r.IsOk() ==> r.body <= SortDesc(ForEmail(log, email), TimeKey)
    ensures r.IsOk() ==> forall i :: 0 <= i < |r.body| ==> r.body[i].email == email && r.body[i] in log
    ensures r.IsOk() ==> Descending(r.body, TimeKey)
  {
    if email == "" then Error(400, "Email required")
    else
      var mine := ForEmail(log, email);
      var sorted := SortDesc(mine, TimeKey);
      SortDescOrdered(mine, TimeKey);
      var r := SliceTo(sorted, HistoryLimit);
      forall i | 0 <= i < |r| ensures r[i].email == email && r[i] in log {
        assert r[i] == sorted[i];
        SortDescMembers(mine, TimeKey, r[i]);
        FilterMembers(log, (e: Entry) => e.email == email, r[i]);
      }
      Reply(200, r)
  }

  // ---------------------------------------------------------------------
  // Leaderboard

  /** The sum of `winAmount` over the winning entries of `email`. */
  function TotalWins(log: seq<Entry>, email: string): real
  {
    if log == [] then 0.0
    else
      var last := log[|log| - 1];
      TotalWins(log[..|log| - 1], email) + (if last.isWin && last.email == email then last.winAmount else 0.0)
  }

  /** The emails with at least one winning entry, in the order of their first win. */
  function Winners(log: seq<Entry>): (w: seq<string>)
    ensures forall i, j :: 0 <= i < j < |w| ==> w[i] != w[j]
  {
    if log == [] then []
    else
      var last := log[|log| - 1];
      var w := Winners(log[..|log| - 1]);
      if last.isWin && last.email !in w then w + [last.email] else w
  }

  lemma {:induction false} WinnersExactly(log: seq<Entry>, email: string)
    ensures email in Winners(log) <==> exists i :: 0 <= i < |log| && log[i].isWin && log[i].email == email
  {
    if log != [] {
      var init := log[..|log| - 1];
      WinnersExactly(init, email);
      if exists i :: 0 <= i < |init| && init[i].isWin && init[i].email == email {
        var i :| 0 <= i < |init| && init[i].isWin && init[i].email == email;
        assert log[i] == init[i];
      }
      if exists i :: 0 <= i < |log| && log[i].isWin && log[i].email == email {
        var i :| 0 <= i < |log| && log[i].isWin && log[i].email == email;
        if i < |init| { assert init[i] == log[i]; }
      }
    }
  }

  datatype LeaderEntry = LeaderEntry(email: string, totalWins: real, rank: int)

  function TotalKey(e: LeaderEntry): Option<real> { Some(e.totalWins) }

  /** `Array.from(winsByEmail.entries())` mapped to unranked entries. */
  function Unranked(log: seq<Entry>, emails: seq<string>): (r: seq<LeaderEntry>)
    ensures |r| == |emails|
    ensures forall i :: 0 <= i < |r| ==> r[i] == LeaderEntry(emails[i], TotalWins(log, emails[i]), 0)
  {
    if emails == [] then [] else [LeaderEntry(emails[0], TotalWins(log, emails[0]), 0)] + Unranked(log, emails[1..])
  }

  function WithRanks(s: seq<LeaderEntry>): (r: seq<LeaderEntry>)
    ensures |r| == |s|
    ensures forall i :: 0 <= i < |s| ==> r[i] == s[i].(rank := i + 1)
  {
    seq(|s|, i requires 0 <= i < |s| => s[i].(rank := i + 1))
  }

  /** Unranked entries read from a running table of totals. */
  function FromTotals(emails: seq<string>, totals: map<string, real>): (r: seq<LeaderEntry>)
    requires forall e :: e in emails ==> e in totals
    ensures |r| == |emails|
    ensures forall i :: 0 <= i < |r| ==> r[i] == LeaderEntry(emails[i], totals[emails[i]], 0)
  {
    if emails == [] then [] else [LeaderEntry(emails[0], totals[emails[0]], 0)] + FromTotals(emails[1..], totals)
  }

  /** Every winner ranked by total winnings, before the top-20 cut. */
  function Ranking(log: seq<Entry>): seq<LeaderEntry> {
    WithRanks(SortDesc(Unranked(log, Winners(log)), TotalKey))
  }

  /** What the leaderboard promises of the full ranking. */
  ghost predicate RankingSpec(log: seq<Entry>, r: seq<LeaderEntry>) {
    && (forall i :: 0 <= i < |r| ==> r[i].rank == i + 1)
    && (forall i :: 0 <= i < |r| ==> r[i].totalWins == TotalWins(log, r[i].email))
    && (forall i, j :: 0 <= i < j < |r| ==> r[i].totalWins >= r[j].totalWins)
    && (forall i, j :: 0 <= i < j < |r| ==> r[i].email != r[j].email)
    && (forall i :: 0 <= i < |r| ==> r[i].email in Winners(log))
  }

  /** The winners' entries, sorted: each winner's own total, unranked, no entry twice. */
  lemma SortedTotals(log: seq<Entry>)
    ensures var s := SortDesc(Unranked(log, Winners(log)), TotalKey);
      && |s| == |Winners(log)|
      && Distinct(s)
      && forall i :: 0 <= i < |s| ==>
           s[i].email in Winners(log) && s[i] == LeaderEntry(s[i].email, TotalWins(log, s[i].email), 0)
  {
    var w := Winners(log);
    var u := Unranked(log, w);
    var s := SortDesc(u, TotalKey);
    assert Distinct(u) by {
      forall i, j | 0 <= i < j < |u| ensures u[i] != u[j] {
        assert u[i].email == w[i] && u[j].email == w[j];
      }
    }
    PermutationDistinct(u, s);
    forall i | 0 <= i < |s|
      ensures s[i].email in w && s[i] == LeaderEntry(s[i].email, TotalWins(log, s[i].email), 0)
    {
      assert s[i] in multiset(u);
      var k :| 0 <= k < |u| && u[k] == s[i];
    }
  }

  /** The ranking lists each winner once, with its total, largest total first, ranked 1..n. */
  lemma RankingCorrect(log: seq<Entry>)
    ensures RankingSpec(log, Ranking(log))
    ensures |Ranking(log)| == |Winners(log)|
  {
    var u := Unranked(log, Winners(log));
    var s := SortDesc(u, TotalKey);
    var r := WithRanks(s);
    SortDescOrdered(u, TotalKey);
    SortedTotals(log);
    forall i, j | 0 <= i < j < |r| ensures r[i].totalWins >= r[j].totalWins {
      assert !Before(TotalKey, s[j], s[i]);
    }
    forall i, j | 0 <= i < j < |r| ensures r[i].email != r[j].email {
      assert s[i] != s[j];
    }
  }

  /** Every winner is in the ranking. */
  lemma RankingComplete(log: seq<Entry>, email: string)
    requires email in Winners(log)
    ensures exists i :: 0 <= i < |Ranking(log)| && Ranking(log)[i].email == email
  {
    var w := Winners(log);
    var u := Unranked(log, w);
    var s := SortDesc(u, TotalKey);
    var k :| 0 <= k < |w| && w[k] == email;
    assert u[k] in multiset(s);
    var i :| 0 <= i < |s| && s[i] == u[k];
    assert Ranking(log)[i].email == email;
  }

  // ---------------------------------------------------------------------
  // Daily statistics

  datatype Stats = Stats(totalGames: nat, totalWins: nat, totalBet: real, totalWinnings: real, winRate: real)

  function SumBets(es: seq<Entry>): real {
    if es == [] then 0.0 else es[0].bet + SumBets(es[1..])
  }

  function SumWinnings(es: seq<Entry>): real {
    if es == [] then 0.0 else (if es[0].isWin then es[0].winAmount else 0.0) + SumWinnings(es[1..])
  }

  /** The win count of the entries. */
  function WinCount(es: seq<Entry>): (n: nat)
    ensures n <= |es|
  {
    |Filter(es, (e: Entry) => e.isWin)|
  }

  /** `a` is `p` percent of `b`. */
  predicate PercentOf(p: real, a: nat, b: nat) {
    p * b as real == 100.0 * a as real
  }

  /** `a / b * 100` for a share `a` of `b`. */
  function Percent(a: nat, b: nat): (p: real)
    requires 0 < b && a <= b
    ensures 0.0 <= p <= 100.0
    ensures PercentOf(p, a, b)
  {
    var q := a as real / b as real;
    assert q * b as real == a as real;
    ShareAtMostOne(q, b as real);
    q * 100.0
  }

  lemma ShareAtMostOne(q: real, b: real)
    requires b > 0.0 && q * b <= b
    ensures q <= 1.0
  {
  }

  /** getDailyStats in games.ts; `winRate` is the percentage before `toFixed(2)`, 0 with no games. */
  function DailyStats(log: seq<Entry>, email: string): (r: Response<Stats>)
    ensures email == "" <==> r == Error(400, "Email required")
    ensures r.IsOk() ==>
      && r.body.totalGames == |ForEmail(log, email)|
      && r.body.totalWins == WinCount(ForEmail(log, email))
      && r.body.totalWins <= r.body.totalGames
      && r.body.totalBet == SumBets(ForEmail(log, email))
      && r.body.totalWinnings == SumWinnings(ForEmail(log, email))
      && 0.0 <= r.body.winRate <= 100.0
      && (r.body.totalGames == 0 ==> r.body.winRate == 0.0)
    ensures r.IsOk() && r.body.totalGames > 0 ==> PercentOf(r.body.winRate, r.body.totalWins, r.body.totalGames)
  {
    if email == "" then Error(400, "Email required")
    else
      var mine := ForEmail(log, email);
      var games := |mine|;
      var wins := WinCount(mine);
      if games == 0 then Reply(200, Stats(games, wins, SumBets(mine), SumWinnings(mine), 0.0))
      else
        Reply(200, Stats(games, wins, SumBets(mine), SumWinnings(mine), Percent(wins, games)))
  }

  /** Betting at least the minimum each time, a player has staked at least one unit per game. */
  lemma {:induction false} SumBetsAtLeastGames(es: seq<Entry>)
    requires forall i :: 0 <= i < |es| ==> es[i].bet >= MinBet
    ensures SumBets(es) >= |es| as real
  {
    if es != [] {
      SumBetsAtLeastGames(es[1..]);
    }
  }

  /** Total winnings of one player as the stats see them equal that player's leaderboard total. */
  lemma {:induction false} WinningsAgree(log: seq<Entry>, email: string)
    ensures SumWinnings(ForEmail(log, email)) == TotalWins(log, email)
  {
    if log != [] {
      var init := log[..|log| - 1];
      var last := log[|log| - 1];
      assert log == init + [last];
      WinningsAgree(init, email);
      FilterAppend(init, [last], (e: Entry) => e.email == email);
      SumWinningsAppend(ForEmail(init, email), ForEmail([last], email));
    }
  }

  lemma {:induction false} SumWinningsAppend(a: seq<Entry>, b: seq<Entry>)
    ensures SumWinnings(a + b) == SumWinnings(a) + SumWinnings(b)
  {
    if a != [] {
      assert (a + b)[1..] == a[1..] + b;
      SumWinningsAppend(a[1..], b);
    } else {
      assert a + b == b;
    }
  }

  // ---------------------------------------------------------------------
  // The log

  /** The server's game log. Plays only append; the queries read it. */
  class GameLog {
    var log: seq<Entry>

    constructor ()
      ensures log == []
    {
      log := [];
    }

    method PlaySpinWheel(req: GameRequest, index: nat, now: nat) returns (r: Response<WheelResult>)
      requires index < |WheelMultipliers|
      modifies this
      ensures log == WheelPlay(old(log), req, index, now).log && r == WheelPlay(old(log), req, index, now).response
    {
      var o := WheelPlay(log, req, index, now);
      log, r := o.log, o.response;
    }

    method PlayLottery(req: GameRequest, player: seq<int>, winning: seq<int>, now: nat) returns (r: Response<LotteryResult>)
      requires IsDraw(player) && IsDraw(winning)
      modifies this
      ensures log == LotteryPlay(old(log), req, player, winning, now).log
      ensures r == LotteryPlay(old(log), req, player, winning, now).response
    {
      var o := LotteryPlay(log, req, player, winning, now);
      log, r := o.log, o.response;
    }

    method PlayScratchCard(req: GameRequest, positions: seq<bool>, now: nat) returns (r: Response<ScratchResult>)
      requires |positions| == ScratchPositions
      modifies this
      ensures log == ScratchPlay(old(log), req, positions, now).log && r == ScratchPlay(old(log), req, positions, now).response
    {
      var o := ScratchPlay(log, req, positions, now);
      log, r := o.log, o.response;
    }

    /**
     * getLeaderboard in games.ts: sums the wins per email in one pass over
     * the log, then ranks the totals and keeps the top 20. The requested
     * timeframe is only echoed back, "week" when it is missing or empty.
     */
    method GetLeaderboard(timeframe: string) returns (shown: string, board: seq<LeaderEntry>)
      ensures shown == if timeframe == "" then "week" else timeframe
      ensures board == SliceTo(Ranking(log), LeaderboardSize)
      ensures |board| <= LeaderboardSize
      ensures RankingSpec(log, board)
    {
      shown := if timeframe == "" then "week" else timeframe;
      var totals: map<string, real> := map[];
      var order: seq<string> := [];
      var i := 0;
      while i < |log|
        invariant 0 <= i <= |log|
        invariant order == Winners(log[..i])
        invariant forall e :: e in totals <==> e in order
        invariant forall e :: e in totals ==> totals[e] == TotalWins(log[..i], e)
      {
        var tx := log[i];
        assert log[..i + 1][..i] == log[..i];
        if tx.isWin {
          var current := if tx.email in totals then totals[tx.email] else 0.0;
          if tx.email !in totals {
            NoWinsNoTotal(log[..i], tx.email);
            order := order + [tx.email];
          }
          totals := totals[tx.email := current + tx.winAmount];
        }
        i := i + 1;
      }
      assert log[..i] == log;
      var entries := FromTotals(order, totals);
      assert entries == Unranked(log, order);
      var ranked := WithRanks(SortDesc(entries, TotalKey));
      board := SliceTo(ranked, LeaderboardSize);
      RankingCorrect(log);
    }
  }

  /** An email without any winning entry has a total of zero. */
  lemma {:induction false} NoWinsNoTotal(log: seq<Entry>, email: string)
    requires email !in Winners(log)
    ensures TotalWins(log, email) == 0.0
  {
    if log != [] {
      var init := log[..|log| - 1];
      assert email !in Winners(init);
      NoWinsNoTotal(init, email);
    }
  }
}
