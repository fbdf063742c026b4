/**
 * The games page: the client-side wheel, lottery and scratch card, each
 * settling against the balance on the page, and the bet controls. The
 * random draws are inputs. The wheel awaits a delay between the click and
 * the settlement, so it is two steps here; the stake and the balance it
 * settles against are the ones captured at the click.
 */
module GamesPage {
  import opened Wrappers
  import Seqs
  import GameRoutes

  /** The page draws the full turns and the random part of the spin separately. */
  const FullTurns: real := 360.0 * 5.0
  const SegmentAngle: real := 360.0 / 6.0
  const LotteryWinChance: real := 0.95
  const LotteryPrizeFactor: real := 100.0
  const ScratchPrizeFactor: real := 5.0
  const InitialBet: real := 10.0

  /** The degrees a spin adds to the wheel, for the draw `u` of `Math.random()`. */
  function Rotation(u: real): (d: real)
    requires 0.0 <= u < 1.0
    ensures FullTurns <= d < FullTurns + 360.0
  {
    u * 360.0 + FullTurns
  }

  /** `x % 360` for a non-negative angle. */
  function Mod360(x: real): (m: real)
    requires x >= 0.0
    ensures 0.0 <= m < 360.0
    ensures (x - m) / 360.0 == ((x - m) / 360.0).Floor as real
  {
    x - 360.0 * (x / 360.0).Floor as real
  }

  /** The segment the wheel stops on: the angle in its last turn, sixty degrees per segment, at most the last. */
  function SegmentIndex(u: real): (i: nat)
    requires 0.0 <= u < 1.0
    ensures i < |GameRoutes.WheelMultipliers|
    ensures i == (u * 6.0).Floor
  {
    var normalized := Mod360(Rotation(u));
    assert normalized == u * 360.0 by {
      var x := Rotation(u);
      assert x / 360.0 == u + 5.0;
      assert (x / 360.0).Floor == 5;
    }
    assert normalized / SegmentAngle == u * 6.0;
    var index := (normalized / SegmentAngle).Floor;
    if index < 5 then index else 5
  }

  /** Every segment is reached by a sixth of the draws: segment `k` by exactly `k/6 <= u < (k+1)/6`. */
  lemma SegmentUniform(u: real, k: nat)
    requires 0.0 <= u < 1.0 && k < 6
    ensures SegmentIndex(u) == k <==> k as real / 6.0 <= u < (k + 1) as real / 6.0
  {
  }

  /** The balance after a spin that stops on segment `index`. */
  function WheelBalance(balance: real, bet: real, index: nat): (b: real)
    requires index < |GameRoutes.WheelMultipliers|
    ensures GameRoutes.WheelMultipliers[index] > 1.0 ==>
      b == balance - bet + GameRoutes.Floor(bet * GameRoutes.WheelMultipliers[index]) as real
    ensures GameRoutes.WheelMultipliers[index] <= 1.0 ==> b == balance - bet
  {
    var m := GameRoutes.WheelMultipliers[index];
    if m > 1.0 then balance - bet + GameRoutes.Floor(bet * m) as real else balance - bet
  }

  /** The page settles a spin exactly as the server pays it: the stake goes, the server's win amount comes. */
  lemma WheelAgreesWithServer(balance: real, bet: real, index: nat)
    requires index < |GameRoutes.WheelMultipliers|
    ensures WheelBalance(balance, bet, index) == balance - bet + GameRoutes.WheelPayout(bet, index).1
  {
  }

  /** A spin never loses more than the stake. */
  lemma WheelLosesAtMostStake(balance: real, bet: real, index: nat)
    requires index < |GameRoutes.WheelMultipliers| && bet >= 0.0
    ensures WheelBalance(balance, bet, index) >= balance - bet
  {
  }

  /** A lottery ticket wins when the draw exceeds 0.95; a win nets 99 times the stake. */
  function LotteryBalance(balance: real, bet: real, chance: real): (b: real)
    ensures chance > LotteryWinChance ==> b == balance + 99.0 * bet
    ensures chance <= LotteryWinChance ==> b == balance - bet
  {
    var isWin := chance > LotteryWinChance;
    var amount := if isWin then bet * LotteryPrizeFactor else 0.0;
    if isWin then balance - bet + amount else balance - bet
  }

  /** The page's scratch card wins as soon as one card is a prize. */
  predicate ScratchWin(cards: seq<bool>) {
    exists i :: 0 <= i < |cards| && cards[i]
  }

  /** A scratch card nets four times the stake on a win and loses the stake otherwise. */
  function ScratchBalance(balance: real, bet: real, cards: seq<bool>): (b: real)
    ensures ScratchWin(cards) ==> b == balance + 4.0 * bet
    ensures !ScratchWin(cards) ==> b == balance - bet
  {
    var hasWin := ScratchWin(cards);
    var amount := if hasWin then bet * ScratchPrizeFactor else 0.0;
    if hasWin then balance - bet + amount else balance - bet
  }

  /** The page wins on one prize; the server needs two. A server win is a page win, not the reverse. */
  lemma {:induction false} ScratchRulesDiffer(cards: seq<bool>)
    ensures ScratchWin(cards) <==> GameRoutes.Revealed(cards) >= 1
    ensures GameRoutes.Revealed(cards) >= GameRoutes.ScratchWinCount ==> ScratchWin(cards)
  {
    var p := GameRoutes.IsPrize;
    if ScratchWin(cards) {
      var i :| 0 <= i < |cards| && cards[i];
      Seqs.FilterMembers(cards, p, cards[i]);
    }
    if GameRoutes.Revealed(cards) >= 1 {
      var f := Seqs.Filter(cards, p);
      assert p(f[0]);
      Seqs.FilterMembers(cards, p, f[0]);
    }
  }

  /** One prize on nine cards: the page pays, the server would not. */
  lemma OnePrizeSplitsTheRules()
    ensures var cards := [true, false, false, false, false, false, false, false, false];
      ScratchWin(cards) && !GameRoutes.ScratchPayout(1.0, GameRoutes.Revealed(cards)).0
  {
    var cards := [true, false, false, false, false, false, false, false, false];
    assert ScratchWin(cards);
    assert Seqs.Filter(cards, GameRoutes.IsPrize) == [true];
  }

  /** The bet input: the typed whole number, and 1 when it is missing, zero or below 1. */
  function BetInput(parsed: Option<int>): (b: real)
    ensures b >= 1.0
    ensures parsed.Some? && parsed.value >= 1 ==> b == parsed.value as real
    ensures parsed.None? ==> b == 1.0
    ensures parsed.Some? && parsed.value < 1 ==> b == 1.0
  {
    var typed := if parsed.Some? && parsed.value != 0 then parsed.value else 1;
    if typed >= 1 then typed as real else 1.0
  }

  /** The 2x button: twice the bet, but never above the balance. */
  function DoubledBet(balance: real, bet: real): (b: real)
    ensures b <= balance && b <= 2.0 * bet
    ensures b == balance || b == 2.0 * bet
  {
    if balance < bet * 2.0 then balance else bet * 2.0
  }

  /** What a settled play shows. */
  datatype PlayResult =
    | WheelShown(segment: string, multiplier: real, amount: real, isWin: bool)
    | LotteryShown(numbers: seq<int>, isWin: bool, amount: real)
    | ScratchShown(cards: seq<bool>, isWin: bool, amount: real)

  /** A spin between click and settlement: the draw, and the stake and balance the click saw. */
  datatype Spin = Spin(draw: real, stake: real, balance: real)

  class Games {
    var balance: real
    var bet: real
    var spinning: bool
    var rotation: real
    var result: Option<PlayResult>
    var pending: Option<Spin>

    /** The balance and the bet stay non-negative, and a spin is pending exactly while the wheel spins. */
    ghost predicate Valid()
      reads this
    {
      && balance >= 0.0 && bet >= 0.0
      && (spinning <==> pending.Some?)
      && (pending.Some? ==>
            0.0 <= pending.value.draw < 1.0 && 0.0 <= pending.value.stake <= pending.value.balance)
    }

    constructor (startBalance: real)
      requires startBalance >= 0.0
      ensures Valid()
      ensures balance == startBalance && bet == InitialBet && !spinning && rotation == 0.0 && result == None
    {
      balance := startBalance;
      bet := InitialBet;
      spinning := false;
      rotation := 0.0;
      result := None;
      pending := None;
    }

    /** The click on "Spin": refused while spinning or when the balance is below the bet. */
    method BeginSpin(u: real)
      requires Valid() && 0.0 <= u < 1.0
      modifies this
      ensures Valid()
      ensures old(spinning) || old(balance) < old(bet) ==> unchanged(this)
      ensures !(old(spinning) || old(balance) < old(bet)) ==>
        && spinning && result == None && rotation == old(rotation) + Rotation(u)
        && pending == Some(Spin(u, old(bet), old(balance)))
        && balance == old(balance) && bet == old(bet)
    {
      if spinning || balance < bet {
        return;
      }
      spinning := true;
      result := None;
      rotation := rotation + Rotation(u);
      pending := Some(Spin(u, bet, balance));
    }

    /** The end of the delay: the wheel shows its segment and the captured balance is settled. */
    method FinishSpin()
      requires Valid() && spinning
      modifies this
      ensures Valid() && !spinning
      ensures var s := old(pending).value; var i := SegmentIndex(s.draw);
        && balance == WheelBalance(s.balance, s.stake, i)
        && result == Some(WheelShown(GameRoutes.WheelLabels[i], GameRoutes.WheelMultipliers[i],
                                     GameRoutes.Floor(s.stake * GameRoutes.WheelMultipliers[i]) as real,
                                     GameRoutes.WheelMultipliers[i] > 1.0))
      ensures bet == old(bet) && rotation == old(rotation)
    {
      var s := pending.value;
      var i := SegmentIndex(s.draw);
      var m := GameRoutes.WheelMultipliers[i];
      var amount := GameRoutes.Floor(s.stake * m) as real;
      result := Some(WheelShown(GameRoutes.WheelLabels[i], m, amount, m > 1.0));
      WheelLosesAtMostStake(s.balance, s.stake, i);
      balance := WheelBalance(s.balance, s.stake, i);
      spinning := false;
      pending := None;
    }

    /** The lottery button: refused when the balance is below the bet. */
    method PlayLottery(numbers: seq<int>, chance: real)
      requires Valid() && 0.0 <= chance < 1.0
      modifies this
      ensures Valid()
      ensures old(balance) < old(bet) ==> unchanged(this)
      ensures old(balance) >= old(bet) ==>
        && balance == LotteryBalance(old(balance), old(bet), chance)
        && result == Some(LotteryShown(numbers, chance > LotteryWinChance,
                                       if chance > LotteryWinChance then old(bet) * LotteryPrizeFactor else 0.0))
        && bet == old(bet) && spinning == old(spinning) && pending == old(pending) && rotation == old(rotation)
    {
      if balance < bet {
        return;
      }
      var isWin := chance > LotteryWinChance;
      result := Some(LotteryShown(numbers, isWin, if isWin then bet * LotteryPrizeFactor else 0.0));
      balance := LotteryBalance(balance, bet, chance);
    }

    /** The scratch-card button: refused when the balance is below the bet. */
    method PlayScratchCard(cards: seq<bool>)
      requires Valid() && |cards| == 9
      modifies this
      ensures Valid()
      ensures old(balance) < old(bet) ==> unchanged(this)
      ensures old(balance) >= old(bet) ==>
        && balance == ScratchBalance(old(balance), old(bet), cards)
        && result == Some(ScratchShown(cards, ScratchWin(cards),
                                       if ScratchWin(cards) then old(bet) * ScratchPrizeFactor else 0.0))
        && bet == old(bet) && spinning == old(spinning) && pending == old(pending) && rotation == old(rotation)
    {
      if balance < bet {
        return;
      }
      var hasWin := ScratchWin(cards);
      result := Some(ScratchShown(cards, hasWin, if hasWin then bet * ScratchPrizeFactor else 0.0));
      balance := ScratchBalance(balance, bet, cards);
    }

    /** Typing into the bet field. */
    method SetBet(parsed: Option<int>)
      requires Valid()
      modifies this
      ensures Valid()
      ensures bet == BetInput(parsed) && bet >= 1.0
      ensures balance == old(balance) && spinning == old(spinning) && pending == old(pending)
      ensures rotation == old(rotation) && result == old(result)
    {
      bet := BetInput(parsed);
    }

    /** The 2x button. */
    method DoubleBet()
      requires Valid()
      modifies this
      ensures Valid()
      ensures bet == DoubledBet(old(balance), old(bet)) && bet <= balance
      ensures balance == old(balance) && spinning == old(spinning) && pending == old(pending)
      ensures rotation == old(rotation) && result == old(result)
    {
      bet := DoubledBet(balance, bet);
    }
  }
}
