/** The game globals king_i, plus_level, money and game_state as the fields
    of one object, updated in place by the same steps as the source's
    functions. Each method is proved to leave the fields exactly as the
    corresponding pure transition of module Engine says. */
module Session {
  import opened Rules
  import opened Engine
  import opened Frame

  class Game {
    var kingIdx: nat
    var level: nat
    var money: int
    var state: GameState

    /** The four globals as one value. */
    function Globals(): (g: Progress)
      reads this
    {
      Progress(kingIdx, level, money, state)
    }

    predicate Valid()
      reads this
    {
      Consistent(Globals())
    }

    /** The module-level initialisation of the globals. */
    constructor ()
      ensures Globals() == Initial && Valid()
    {
      kingIdx, level, money, state := 0, 0, StartMoney, Play;
    }

    method ResetItem()
      modifies this
      ensures Globals() == Engine.ResetItem(old(Globals()))
    {
      kingIdx := 0;
      level := 0;
    }

    method ResetGame()
      modifies this
      ensures Globals() == Engine.ResetGame(old(Globals())) && Valid()
    {
      ResetItem();
      money := StartMoney;
      state := Play;
    }

    method StartEnding()
      modifies this
      ensures Globals() == Engine.StartEnding(old(Globals()))
    {
      state := Ending;
    }

    /** do_upgrade, with the two random draws given as `d`. */
    method Upgrade(d: Draw) returns (o: Outcome)
      modifies this
      ensures Turn(Globals(), o) == Engine.Upgrade(old(Globals()), d)
      ensures old(Valid()) && old(state) == Play ==> Valid()
    {
      var c := Cost(level);
      if money < c {
        return NotEnoughMoney;
      }
      money := money - c;

      var s := SuccessRate(level);
      var dr := DownRate(level);
      var b := BreakRate(level);

      if d.first <= s {
        level := level + 1;
        if kingIdx < LastKing {
          kingIdx := kingIdx + 1;
        }
        o := Succeeded;
        if kingIdx == LastKing && level >= KingCount {
          StartEnding();
        }
        return;
      }

      var r := d.second;
      if b > 0 && r <= b {
        ResetItem();
        return Destroyed;
      }
      if dr > 0 && r <= b + dr {
        if level > 0 {
          level := level - 1;
        }
        if kingIdx > 0 {
          kingIdx := kingIdx - 1;
        }
        return Downgraded;
      }
      o := Kept;
    }

    /** do_sell. */
    method Sell() returns (o: Outcome)
      modifies this
      ensures Turn(Globals(), o) == Engine.Sell(old(Globals()))
      ensures old(Valid()) && old(state) == Play ==> Valid()
    {
      if level == 0 {
        return SellRefused;
      }
      var price := SellPrice(level);
      money := money + price;
      ResetItem();
      o := Sold(price);
    }

    /** The event loop of one frame: dispatch every event of the batch in
        order; returns the loop's `running` flag afterwards (it is true when
        the frame begins). ds[i] holds the random draws for events[i]. */
    method HandleEvents(events: seq<Event>, ds: seq<Draw>) returns (running: bool)
      requires |events| == |ds|
      modifies this
      ensures Loop(Globals(), running) == Run(Loop(old(Globals()), true), events, ds)
      ensures old(Valid()) ==> Valid()
    {
      running := true;
      for i := 0 to |events|
        invariant Loop(Globals(), running) == Run(Loop(old(Globals()), true), events[..i], ds[..i])
        invariant old(Valid()) ==> Valid()
      {
        ghost var before := Loop(Globals(), running);
        var e := events[i];
        if e == Quit {
          running := false;
        }
        if state == Ending {
          if e.KeyDown? {
            if e.key == Return {
              ResetGame();
            } else if e.key == Escape {
              running := false;
            }
          }
        } else if e.MouseDown? && e.button == 1 {
          if Collides(FaceRect, e.x, e.y) || Collides(UpButton, e.x, e.y) {
            var _ := Upgrade(ds[i]);
          } else if Collides(SellButton, e.x, e.y) {
            var _ := Sell();
          }
        }
        assert Loop(Globals(), running) == Dispatch(before, e, ds[i]);
        assert events[..i + 1][..i] == events[..i] && ds[..i + 1][..i] == ds[..i];
      }
      assert events[..|events|] == events && ds[..|ds|] == ds;
    }
  }
}
