/** The progression engine as pure transitions: each operation of the game
    takes the four game globals (king index, level, money, game state) as a
    value and returns their new values together with what happened. The
    class in module Session performs the same steps in place and is proved
    against these functions. */
module Engine {
  import opened Rules

  datatype GameState = Play | Ending

  /** king_i, plus_level, money and game_state. */
  datatype Progress = Progress(kingIdx: nat, level: nat, money: int, state: GameState)

  /** One draw of random.randint(1, 100). */
  type Roll = r: int | 1 <= r <= 100 witness 1

  /** The two draws an upgrade may make: the success roll and, only read
      after a failure, the roll that picks destroy, downgrade or keep. */
  datatype Draw = Draw(first: Roll, second: Roll)

  /** What an operation did; the source turns each into its popup text. */
  datatype Outcome =
    | NotEnoughMoney
    | Succeeded
    | Destroyed
    | Downgraded
    | Kept
    | Sold(price: nat)
    | SellRefused

  datatype Turn = Turn(next: Progress, outcome: Outcome)

  /** The globals at program start (and after a full reset). */
  const Initial: Progress := Progress(0, 0, StartMoney, Play)

  /** The states the game can reach: money is never negative; while playing
      the king index equals the level and stays within the table; the ending
      holds the last king at level len(KINGS). */
  predicate Consistent(s: Progress) {
    && 0 <= s.money
    && (s.state == Play ==> s.level <= LastKing && s.kingIdx == s.level)
    && (s.state == Ending ==> s.level == KingCount && s.kingIdx == LastKing)
  }

  lemma InitialConsistent()
    ensures Consistent(Initial) && Initial.state == Play
  {
  }

  /** In a consistent state the king index is a valid index into Kings. */
  lemma ConsistentKingInRange(s: Progress)
    requires Consistent(s)
    ensures s.kingIdx < |Kings|
  {
  }

  /** reset_item: a new item, level and king back to the first. */
  function ResetItem(s: Progress): (r: Progress)
    ensures r.kingIdx == 0 && r.level == 0
    ensures r.money == s.money && r.state == s.state
    ensures Consistent(s) && s.state == Play ==> Consistent(r)
  {
    s.(kingIdx := 0, level := 0)
  }

  /** reset_game: a fresh item, the starting money, play state, whatever came before. */
  function ResetGame(s: Progress): (r: Progress)
    ensures r == Initial && Consistent(r)
    ensures r.money == StartMoney && r.state == Play
  {
    ResetItem(s).(money := StartMoney, state := Play)
  }

  /** start_ending: only the game state changes. */
  function StartEnding(s: Progress): (r: Progress)
    ensures r.state == Ending
    ensures r.kingIdx == s.kingIdx && r.level == s.level && r.money == s.money
  {
    s.(state := Ending)
  }

  /** The ending condition checked after every success. */
  predicate EndingReached(s: Progress) {
    s.kingIdx == LastKing && s.level >= KingCount
  }

  /** How an attempt at `level` comes out for the given draw. The break band
      is checked first, then the downgrade band, both with the rates of the
      level the attempt was made at. Because a roll is at least 1, the
      source's guards "b > 0" and "d > 0" change nothing: the second roll
      alone is partitioned into [1, b], (b, b + d] and the rest. */
  function Attempt(level: nat, d: Draw): (o: Outcome)
    ensures o in {Succeeded, Destroyed, Downgraded, Kept}
    ensures o == Succeeded <==> d.first <= SuccessRate(level)
    ensures o == Destroyed <==> d.first > SuccessRate(level) && d.second <= BreakRate(level)
    ensures o == Downgraded <==>
      d.first > SuccessRate(level) && BreakRate(level) < d.second <= BreakRate(level) + DownRate(level)
    ensures o == Kept <==>
      d.first > SuccessRate(level) && d.second > BreakRate(level) + DownRate(level)
  {
    var b := BreakRate(level);
    var dr := DownRate(level);
    if d.first <= SuccessRate(level) then Succeeded
    else if b > 0 && d.second <= b then Destroyed
    else if dr > 0 && d.second <= b + dr then Downgraded
    else Kept
  }

  /** do_upgrade. */
  function Upgrade(s: Progress, d: Draw): (t: Turn)
    // unaffordable: nothing at all changes
    ensures s.money < Cost(s.level) <==> t.outcome == NotEnoughMoney
    ensures s.money < Cost(s.level) ==> t.next == s
    // affordable: the cost of the attempted level is paid exactly once, whatever happens
    ensures s.money >= Cost(s.level) ==>
      t.next.money == s.money - Cost(s.level) && t.outcome == Attempt(s.level, d)
    ensures t.outcome == Succeeded ==>
      t.next.level == s.level + 1 &&
      t.next.kingIdx == (if s.kingIdx < LastKing then s.kingIdx + 1 else s.kingIdx)
    ensures t.outcome == Destroyed ==> t.next.level == 0 && t.next.kingIdx == 0
    ensures t.outcome == Downgraded ==>
      t.next.level == (if s.level > 0 then s.level - 1 else 0) &&
      t.next.kingIdx == (if s.kingIdx > 0 then s.kingIdx - 1 else 0)
    ensures t.outcome == Kept ==> t.next.level == s.level && t.next.kingIdx == s.kingIdx
    // the game ends exactly on a success that lands on the last king at level len(KINGS) or more
    ensures t.next.state == Ending <==>
      s.state == Ending || (t.outcome == Succeeded && EndingReached(t.next))
    // the invariants
    ensures s.money >= 0 ==> t.next.money >= 0
    ensures s.kingIdx <= LastKing ==> t.next.kingIdx <= LastKing
    ensures Consistent(s) && s.state == Play ==> Consistent(t.next)
  {
    var c := Cost(s.level);
    if s.money < c then Turn(s, NotEnoughMoney)
    else
      var paid := s.(money := s.money - c);
      match Attempt(s.level, d)
      case Succeeded =>
        var up := paid.(level := s.level + 1,
                        kingIdx := if s.kingIdx < LastKing then s.kingIdx + 1 else s.kingIdx);
        Turn(if EndingReached(up) then StartEnding(up) else up, Succeeded)
      case Destroyed =>
        Turn(ResetItem(paid), Destroyed)
      case Downgraded =>
        Turn(paid.(level := if s.level > 0 then s.level - 1 else s.level,
                   kingIdx := if s.kingIdx > 0 then s.kingIdx - 1 else s.kingIdx), Downgraded)
      case Kept =>
        Turn(paid, Kept)
  }

  /** do_sell. */
  function Sell(s: Progress): (t: Turn)
    ensures s.level == 0 <==> t.outcome == SellRefused
    ensures s.level == 0 ==> t.next == s
    ensures s.level > 0 ==>
      t.outcome == Sold(SellPrice(s.level)) &&
      t.next.money == s.money + SellPrice(s.level) &&
      t.next.money >= s.money + s.level * SellLevelBonus &&
      t.next.level == 0 && t.next.kingIdx == 0 && t.next.state == s.state
    ensures Consistent(s) && s.state == Play ==> Consistent(t.next)
  {
    if s.level == 0 then Turn(s, SellRefused)
    else
      var price := SellPrice(s.level);
      Turn(ResetItem(s.(money := s.money + price)), Sold(price))
  }

  /** From a consistent playing state, the game ends on an upgrade exactly
      when the item at the last king (level len(KINGS) - 1) is affordable
      and its success roll comes in. */
  lemma EndingOnlyFromLastKing(s: Progress, d: Draw)
    requires Consistent(s) && s.state == Play
    ensures Upgrade(s, d).next.state == Ending <==>
      s.level == LastKing && s.money >= Cost(LastKing) && d.first <= SuccessRate(LastKing)
  {
  }

  /** The rolls from lo + 1 to hi, and how many there are. */
  function Band(lo: int, hi: int): (b: set<int>)
    ensures forall r :: r in b <==> lo < r <= hi
    ensures lo <= hi ==> |b| == hi - lo
    decreases hi - lo
  {
    if hi <= lo then {} else Band(lo, hi - 1) + {hi}
  }

  /** The first rolls, of the 100 equally likely ones, that give outcome o
      at `level` (the second roll does not matter to success). */
  function FirstRollsFor(level: nat, o: Outcome): (rolls: set<int>) {
    set r: int | 1 <= r <= 100 && Attempt(level, Draw(r, 1)) == o
  }

  /** The second rolls that give outcome o after the failing first roll f. */
  function SecondRollsFor(level: nat, f: Roll, o: Outcome): (rolls: set<int>) {
    set r: int | 1 <= r <= 100 && Attempt(level, Draw(f, r)) == o
  }

  /** The rates are exact percentages: of the 100 equally likely first
      rolls exactly SuccessRate(level) succeed. */
  lemma SuccessRateIsExact(level: nat)
    ensures |FirstRollsFor(level, Succeeded)| == SuccessRate(level)
  {
    var sr := SuccessRate(level);
    forall r: int ensures r in FirstRollsFor(level, Succeeded) <==> r in Band(0, sr) {
    }
    assert FirstRollsFor(level, Succeeded) == Band(0, sr);
  }

  /** Whatever first roll f failed, of the 100 equally likely second rolls
      exactly BreakRate(level) destroy, exactly DownRate(level) downgrade and
      the rest keep the item. */
  lemma FailureRatesAreExact(level: nat, f: Roll)
    requires f > SuccessRate(level)
    ensures |SecondRollsFor(level, f, Destroyed)| == BreakRate(level)
    ensures |SecondRollsFor(level, f, Downgraded)| == DownRate(level)
    ensures |SecondRollsFor(level, f, Kept)| == 100 - BreakRate(level) - DownRate(level)
  {
    var b, dr := BreakRate(level), DownRate(level);
    BandMatches(level, f, Destroyed, 0, b);
    BandMatches(level, f, Downgraded, b, b + dr);
    BandMatches(level, f, Kept, b + dr, 100);
  }

  lemma BandMatches(level: nat, f: Roll, o: Outcome, lo: int, hi: int)
    requires 0 <= lo <= hi <= 100
    requires forall r: Roll :: Attempt(level, Draw(f, r)) == o <==> lo < r <= hi
    ensures |SecondRollsFor(level, f, o)| == hi - lo
  {
    forall r: int ensures r in SecondRollsFor(level, f, o) <==> r in Band(lo, hi) {
    }
    assert SecondRollsFor(level, f, o) == Band(lo, hi);
  }
}
