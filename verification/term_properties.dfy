/** Properties of the input router and of Print that relate several calls:
    save/restore of the redirect slot, replacement in the handler tables,
    in-order draining of the event queue, and the screen Print leaves behind. */
module TermProperties {
  import opened Basics
  import opened Termbox
  import opened Term

  // ---------------------------------------------------------------------------
  // The redirect slot

  /** Re-installing the value SetInputHandler handed back restores the
      terminal exactly, and hands back the value that was installed. */
  lemma SetInputHandlerRestore(t: Terminal, ih: Option<PanelId>)
    ensures SetInputHandler(SetInputHandler(t, ih).0, SetInputHandler(t, ih).1).0 == t
    ensures SetInputHandler(SetInputHandler(t, ih).0, SetInputHandler(t, ih).1).1 == ih
  {
  }

  /** While a panel is installed it receives every key event, whatever the
      tables say about its rune or key. */
  lemma RedirectTakesEveryKey(t: Terminal, p: PanelId, ev: Event)
    requires IsKey(ev)
    ensures Route(SetInputHandler(t, Some(p)).0.registry, ev) == Invoked(Panel(p), ev)
  {
  }

  /** Clearing the redirect slot puts key events back on table routing. */
  lemma ClearingRedirectRestoresTables(t: Terminal, ev: Event)
    requires IsKey(ev)
    ensures var reg := SetInputHandler(t, None).0.registry;
            match TableLookup(t.registry, ev)
            case Some(h) => Route(reg, ev) == Invoked(Callback(h), ev)
            case None => Route(reg, ev) == Unhandled(ev)
  {
  }

  // ---------------------------------------------------------------------------
  // The handler tables

  /** After HandleRune(c, h), with no redirect, a key event carrying rune c
      reaches h and no earlier handler for c. */
  lemma HandleRuneRoutes(t: Terminal, c: char, h: HandlerId, ev: Event)
    requires t.registry.altInputHandler == None
    requires IsKey(ev) && ev.ch == c && c != NoRune
    ensures Route(HandleRune(t, c, h).registry, ev) == Invoked(Callback(h), ev)
  {
  }

  /** HandleRune(c, h) changes the routing of no event other than key events
      carrying rune c. */
  lemma HandleRuneRoutesOthersAsBefore(t: Terminal, c: char, h: HandlerId, ev: Event)
    requires !(IsKey(ev) && ev.ch == c)
    ensures Route(HandleRune(t, c, h).registry, ev) == Route(t.registry, ev)
  {
  }

  /** The last HandleRune for a rune wins. */
  lemma HandleRuneLastWins(t: Terminal, c: char, h1: HandlerId, h2: HandlerId)
    ensures HandleRune(HandleRune(t, c, h1), c, h2) == HandleRune(t, c, h2)
  {
  }

  /** After HandleKey(k, h), with no redirect, a key event with rune 0 and
      key k reaches h. */
  lemma HandleKeyRoutes(t: Terminal, k: Key, h: HandlerId, ev: Event)
    requires t.registry.altInputHandler == None
    requires IsKey(ev) && ev.ch == NoRune && ev.key == k
    ensures Route(HandleKey(t, k, h).registry, ev) == Invoked(Callback(h), ev)
  {
  }

  /** HandleKey(k, h) changes the routing of no event other than key events
      with rune 0 and key k: a non-zero rune hides the key code. */
  lemma HandleKeyRoutesOthersAsBefore(t: Terminal, k: Key, h: HandlerId, ev: Event)
    requires !(IsKey(ev) && ev.ch == NoRune && ev.key == k)
    ensures Route(HandleKey(t, k, h).registry, ev) == Route(t.registry, ev)
  {
  }

  /** The last HandleKey for a key wins. */
  lemma HandleKeyLastWins(t: Terminal, k: Key, h1: HandlerId, h2: HandlerId)
    ensures HandleKey(HandleKey(t, k, h1), k, h2) == HandleKey(t, k, h2)
  {
  }

  // ---------------------------------------------------------------------------
  // Draining the queue, one event per call

  /** n successive calls of RunInputHandlers with no registration in between:
      the final terminal and the actions, in call order. */
  function RunTicks(t: Terminal, n: nat): (Terminal, seq<Action>)
    decreases n
  {
    if n == 0 then (t, [])
    else
      var s := RunInputHandlers(t);
      var rest := RunTicks(s.term, n - 1);
      (rest.0, [s.action] + rest.1)
  }

  function Min(a: nat, b: nat): nat { if a <= b then a else b }

  /** n calls consume min(n, pending) events, the oldest first, route the
      i-th pending event with the routing state of the start in call i, do
      nothing once the queue is empty, and never change the routing state. */
  lemma {:induction false} TicksRouteInOrder(t: Terminal, n: nat)
    ensures |RunTicks(t, n).1| == n
    ensures RunTicks(t, n).0.registry == t.registry
    ensures RunTicks(t, n).0.events == t.events[Min(n, |t.events|)..]
    ensures forall i :: 0 <= i < n ==>
              RunTicks(t, n).1[i] == (if i < |t.events| then Route(t.registry, t.events[i]) else Idle)
    decreases n
  {
    if n > 0 {
      var s := RunInputHandlers(t);
      TicksRouteInOrder(s.term, n - 1);
      var rest := RunTicks(s.term, n - 1);
      assert RunTicks(t, n) == (rest.0, [s.action] + rest.1);
      if t.events == [] {
        assert s.term == t;
      } else {
        assert s.term.events == t.events[1..];
        assert s.term.registry == t.registry;
        forall i | 0 <= i < n
          ensures RunTicks(t, n).1[i] == (if i < |t.events| then Route(t.registry, t.events[i]) else Idle)
        {
          if i > 0 {
            assert RunTicks(t, n).1[i] == rest.1[i - 1];
          }
        }
      }
    }
  }

  /** The polling side handing over several events, in order. */
  function DeliverAll(t: Terminal, evs: seq<Event>): Terminal
    decreases |evs|
  {
    if evs == [] then t else DeliverAll(Deliver(t, evs[0]), evs[1..])
  }

  /** Delivered events join the back of the queue, in delivery order. */
  lemma {:induction false} DeliverAllAppends(t: Terminal, evs: seq<Event>)
    ensures DeliverAll(t, evs).events == t.events + evs
    ensures DeliverAll(t, evs).registry == t.registry
    decreases |evs|
  {
    if evs != [] {
      DeliverAllAppends(Deliver(t, evs[0]), evs[1..]);
      assert (t.events + [evs[0]]) + evs[1..] == t.events + evs;
    }
  }

  /** Whatever is delivered is, after enough calls, routed once each, in
      delivery order, behind what was already pending: nothing is dropped,
      reordered or coalesced. */
  lemma DeliveredEventsRoutedInOrder(t: Terminal, evs: seq<Event>)
    ensures var all := t.events + evs;
            var run := RunTicks(DeliverAll(t, evs), |all|);
            && run.0.events == []
            && |run.1| == |all|
            && forall i :: 0 <= i < |all| ==> run.1[i] == Route(t.registry, all[i])
  {
    DeliverAllAppends(t, evs);
    TicksRouteInOrder(DeliverAll(t, evs), |t.events + evs|);
  }

  /** An error event is reported and leaves the session intact: the next
      call routes the next event as if the error had not happened. */
  lemma ErrorThenNextEventRoutedNormally(t: Terminal, e: ErrorTag, ev: Event)
    requires t.events == [ErrorEvent(e), ev]
    ensures RunInputHandlers(t).err == Some(EventError(e))
    ensures RunInputHandlers(RunInputHandlers(t).term).action == Route(t.registry, ev)
    ensures RunInputHandlers(RunInputHandlers(t).term).term.events == []
  {
  }

  // ---------------------------------------------------------------------------
  // Concrete sessions

  /** A handler H1 for 'q' is invoked exactly once, with the 'q' event; with a
      redirect panel installed afterwards, the panel gets the next 'q'. */
  lemma RuneThenRedirectSession(m: Modifier, k: Key)
    ensures var ev := KeyEvent(m, k, 'q');
            var t0 := HandleRune(Start(Terminal([], Registry(None, map[], map[]))), 'q', 1);
            var s1 := RunInputHandlers(Deliver(t0, ev));
            var t2 := SetInputHandler(s1.term, Some(2)).0;
            var s2 := RunInputHandlers(Deliver(t2, ev));
            && s1.action == Invoked(Callback(1), ev) && s1.err == None
            && s2.action == Invoked(Panel(2), ev) && s2.err == None
  {
  }

  /** Resize(80, 24), 'a', 'b': three calls consume one event each, in that order. */
  lemma ThreeEventsThreeCalls(t: Terminal, m: Modifier, k: Key)
    requires t.events == []
    ensures var evs := [ResizeEvent(80, 24), KeyEvent(m, k, 'a'), KeyEvent(m, k, 'b')];
            var run := RunTicks(DeliverAll(t, evs), 3);
            && run.1[0] == Resized(80, 24)
            && run.1[1] == Route(t.registry, KeyEvent(m, k, 'a'))
            && run.1[2] == Route(t.registry, KeyEvent(m, k, 'b'))
            && run.0.events == []
  {
    var evs := [ResizeEvent(80, 24), KeyEvent(m, k, 'a'), KeyEvent(m, k, 'b')];
    DeliveredEventsRoutedInOrder(t, evs);
    assert t.events + evs == evs;
  }

  // ---------------------------------------------------------------------------
  // Print on the screen

  /** When the row segment fits in a Go int, performing Print's writes leaves
      rune i of msg at (x+i, y) and every other position as it was: no cell
      outside the segment is written or cleared. */
  lemma {:induction false} PrintPaintsRow(s: Screen, writes: seq<CellWrite>, x: int, y: Int64,
                                          fg: Attribute, bg: Attribute, msg: string)
    requires LaidOut(writes, x, y, fg, bg, msg)
    requires MinInt64 <= x && x + |msg| <= MaxInt64 + 1
    ensures forall i :: 0 <= i < |msg| ==> CellAt(Paint(s, writes), x + i, y) == Some(Cell(msg[i], fg, bg))
    ensures forall col, row :: !(row == y && x <= col < x + |msg|) ==>
              CellAt(Paint(s, writes), col, row) == CellAt(s, col, row)
    decreases |msg|
  {
    if msg != [] {
      var s' := s[(writes[0].x, writes[0].y) := writes[0].cell];
      assert writes[0] == CellWrite(x, y, Cell(msg[0], fg, bg));
      assert LaidOut(writes[1..], x + 1, y, fg, bg, msg[1..]) by {
        forall i | 0 <= i < |writes[1..]|
          ensures writes[1..][i] == CellWrite(Wrap64(x + 1 + i), y, Cell(msg[1..][i], fg, bg))
        {
          assert writes[1..][i] == writes[i + 1];
        }
      }
      PrintPaintsRow(s', writes[1..], x + 1, y, fg, bg, msg[1..]);
      assert Paint(s, writes) == Paint(s', writes[1..]);
      assert CellAt(s', x, y) == Some(Cell(msg[0], fg, bg));
      forall i | 0 < i < |msg|
        ensures CellAt(Paint(s, writes), x + i, y) == Some(Cell(msg[i], fg, bg))
      {
        assert msg[1..][i - 1] == msg[i];
        assert CellAt(Paint(s', writes[1..]), x + 1 + (i - 1), y) == Some(Cell(msg[1..][i - 1], fg, bg));
      }
      forall col, row | !(row == y && x <= col < x + |msg|)
        ensures CellAt(Paint(s, writes), col, row) == CellAt(s, col, row)
      {
        assert CellAt(Paint(s', writes[1..]), col, row) == CellAt(s', col, row);
      }
    }
  }
}
