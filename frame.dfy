/** The input handling of one frame of the main loop: every event of the
    frame's batch is dispatched in order. In the ending state only Enter
    (full reset) and Esc (quit) are acted on; upgrade and sell are reachable
    only from the play state, by a left click on the portrait or the upgrade
    button, or on the sell button. */
module Frame {
  import opened Rules
  import opened Engine

  datatype Key = Return | Escape | OtherKey

  /** The pygame events the loop looks at; every other kind is OtherEvent. */
  datatype Event =
    | Quit
    | KeyDown(key: Key)
    | MouseDown(button: int, x: int, y: int)
    | OtherEvent

  /** A pygame.Rect: left, top, width, height. */
  datatype Rect = Rect(left: int, top: int, width: int, height: int)

  /** pygame's collidepoint: the right and bottom edges are outside. */
  predicate Collides(r: Rect, x: int, y: int) {
    r.left <= x < r.left + r.width && r.top <= y < r.top + r.height
  }

  const FaceRect: Rect := Rect(100, 190, 260, 320)
  const UpButton: Rect := Rect(100, 605, 260, 70)
  const SellButton: Rect := Rect(390, 605, 260, 70)

  /** The three click targets do not overlap, so the "elif" order of the
      dispatch never hides the sell button. */
  lemma TargetsDisjoint(x: int, y: int)
    ensures !(Collides(SellButton, x, y) && (Collides(FaceRect, x, y) || Collides(UpButton, x, y)))
    ensures !(Collides(FaceRect, x, y) && Collides(UpButton, x, y))
  {
  }

  /** The game globals together with the loop's `running` flag. */
  datatype Loop = Loop(game: Progress, running: bool)

  /** Does this event, in this state, ask to leave the loop? */
  predicate StopsLoop(s: Progress, e: Event) {
    e == Quit || (s.state == Ending && e == KeyDown(Escape))
  }

  /** Does this event, in this state, reach do_upgrade or do_sell? */
  predicate Upgrades(s: Progress, e: Event) {
    s.state == Play && e.MouseDown? && e.button == 1 &&
    (Collides(FaceRect, e.x, e.y) || Collides(UpButton, e.x, e.y))
  }

  predicate Sells(s: Progress, e: Event) {
    s.state == Play && e.MouseDown? && e.button == 1 &&
    !Collides(FaceRect, e.x, e.y) && !Collides(UpButton, e.x, e.y) && Collides(SellButton, e.x, e.y)
  }

  /** One pass of the body of "for e in pygame.event.get()"; `d` is what the
      two random draws would give if this event triggers an upgrade. */
  function Dispatch(l: Loop, e: Event, d: Draw): (r: Loop)
    ensures r.running == (l.running && !StopsLoop(l.game, e))
    // in the ending state, only Enter changes the game, and it is a full reset
    ensures l.game.state == Ending ==>
      r.game == (if e == KeyDown(Return) then ResetGame(l.game) else l.game)
    // in the play state, keys never change the game; clicks reach exactly one of upgrade / sell
    ensures l.game.state == Play ==>
      r.game == (if Upgrades(l.game, e) then Upgrade(l.game, d).next
                 else if Sells(l.game, e) then Sell(l.game).next
                 else l.game)
    ensures Consistent(l.game) ==> Consistent(r.game)
  {
    var running := if e == Quit then false else l.running;
    if l.game.state == Ending then
      if e.KeyDown? && e.key == Return then Loop(ResetGame(l.game), running)
      else if e.KeyDown? && e.key == Escape then Loop(l.game, false)
      else Loop(l.game, running)
    else if e.MouseDown? && e.button == 1 then
      if Collides(FaceRect, e.x, e.y) || Collides(UpButton, e.x, e.y) then
        Loop(Upgrade(l.game, d).next, running)
      else if Collides(SellButton, e.x, e.y) then
        Loop(Sell(l.game).next, running)
      else Loop(l.game, running)
    else Loop(l.game, running)
  }

  /** The whole batch of one frame, dispatched in order; ds[i] is the draw
      for events[i]. No batch leads from a reachable state to an unreachable
      one, and a loop told to stop is never restarted by a later event. */
  function Run(l: Loop, events: seq<Event>, ds: seq<Draw>): (r: Loop)
    requires |events| == |ds|
    ensures r.running ==> l.running
    ensures Consistent(l.game) ==> Consistent(r.game) && r.game.kingIdx < |Kings|
    decreases |events|
  {
    if |events| == 0 then l
    else
      var n := |events| - 1;
      Dispatch(Run(l, events[..n], ds[..n]), events[n], ds[n])
  }

  /** Dispatching a batch in two parts is dispatching it whole. */
  lemma {:induction false} RunAppend(l: Loop, a: seq<Event>, da: seq<Draw>, b: seq<Event>, db: seq<Draw>)
    requires |a| == |da| && |b| == |db|
    ensures Run(l, a + b, da + db) == Run(Run(l, a, da), b, db)
    decreases |b|
  {
    if |b| > 0 {
      var n := |b| - 1;
      assert (a + b)[..|a| + n] == a + b[..n];
      assert (da + db)[..|da| + n] == da + db[..n];
      RunAppend(l, a, da, b[..n], db[..n]);
    } else {
      assert a + b == a && da + db == da;
    }
  }

  /** A Quit anywhere in the batch leaves the loop stopped. */
  lemma {:induction false} RunStops(l: Loop, events: seq<Event>, ds: seq<Draw>)
    requires |events| == |ds|
    ensures Quit in events ==> !Run(l, events, ds).running
    decreases |events|
  {
    if |events| > 0 {
      var n := |events| - 1;
      RunStops(l, events[..n], ds[..n]);
      assert events == events[..n] + [events[n]];
    }
  }

  /** Once `running` is false after the first k events, it stays false for
      the rest of the batch. */
  lemma StaysStopped(l: Loop, events: seq<Event>, ds: seq<Draw>, k: nat)
    requires |events| == |ds| && k <= |events|
    requires !Run(l, events[..k], ds[..k]).running
    ensures !Run(l, events, ds).running
  {
    RunAppend(l, events[..k], ds[..k], events[k..], ds[k..]);
    assert events[..k] + events[k..] == events;
    assert ds[..k] + ds[k..] == ds;
  }

  /** After the ending, a batch without Enter changes nothing: the game
      cannot be upgraded or sold until it is reset. */
  lemma {:induction false} EndingIsFrozen(l: Loop, events: seq<Event>, ds: seq<Draw>)
    requires |events| == |ds| && l.game.state == Ending
    requires KeyDown(Return) !in events
    ensures Run(l, events, ds).game == l.game
    decreases |events|
  {
    if |events| > 0 {
      var n := |events| - 1;
      assert events == events[..n] + [events[n]];
      EndingIsFrozen(l, events[..n], ds[..n]);
    }
  }

  /** After the ending, the first Enter of a batch restarts the game with the
      starting money. */
  lemma EnterRestarts(l: Loop, d: Draw)
    requires l.game.state == Ending
    ensures Dispatch(l, KeyDown(Return), d).game == Initial
    ensures Dispatch(l, KeyDown(Return), d).running == l.running
  {
  }
}
