/** The terminal input router of the client: a Terminal owns the queue of
    pending terminal events, two handler tables (rune -> handler and
    key -> handler) and one redirect slot (the "alternate input handler").
    RunInputHandlers consumes at most one pending event per call and routes it.

    The polling goroutine and the unbuffered channel become a FIFO sequence
    `events` that the environment appends to (Deliver); the mutex disappears
    because every operation here is one atomic step. Handler callbacks are
    opaque: they are identified by number and the router records which one it
    invoked, with which event. */
module Term {
  import opened Basics
  import opened Termbox

  /** A KeyHandler callback registered in one of the tables. */
  type HandlerId = nat

  /** An InputHandler (a panel) that can be installed in the redirect slot. */
  type PanelId = nat

  /** The routing state: the redirect slot and the two handler tables. */
  datatype Registry = Registry(
    altInputHandler: Option<PanelId>,
    runeHandlers: map<char, HandlerId>,
    keyHandlers: map<Key, HandlerId>)

  /** A terminal session: pending events, oldest first, and the routing state. */
  datatype Terminal = Terminal(events: seq<Event>, registry: Registry)

  /** Who receives a key event. */
  datatype Target = Panel(panel: PanelId) | Callback(handler: HandlerId)

  /** What one call of RunInputHandlers did. */
  datatype Action =
    | Idle                               // nothing was pending
    | Invoked(target: Target, ev: Event) // a handler was called with ev
    | Unhandled(ev: Event)               // a key event nobody is registered for
    | Resized(width: Int64, height: Int64)
    | Failed(cause: ErrorTag)            // an error event was turned into an error
    | Ignored(ev: Event)                 // mouse, interrupt, raw or none event

  /** The error RunInputHandlers returns for an error event. */
  datatype TermError = EventError(cause: ErrorTag)

  /** The outcome of one call of RunInputHandlers: the new state, what was
      done, and the returned error (None for Go's nil). */
  datatype Step = Step(term: Terminal, action: Action, err: Option<TermError>)

  predicate IsKey(ev: Event) { ev.KeyEvent? }

  /** Routing by the handler tables alone: a key event with a non-zero rune is
      looked up by rune, one with rune 0 by its key code. */
  function TableLookup(reg: Registry, ev: Event): Option<HandlerId>
    requires IsKey(ev)
  {
    if ev.ch != NoRune then Get(reg.runeHandlers, ev.ch) else Get(reg.keyHandlers, ev.key)
  }

  /** Who handles a key event: the redirect panel while one is installed,
      whatever the event's rune or key; otherwise the table entry, if any. */
  function Lookup(reg: Registry, ev: Event): Option<Target>
    requires IsKey(ev)
  {
    match reg.altInputHandler
    case Some(p) => Some(Panel(p))
    case None =>
      match TableLookup(reg, ev)
      case Some(h) => Some(Callback(h))
      case None => None
  }

  /** The routing decision for one event, by kind: key events go to their
      handler or are dropped, resizes go to the resize hook, errors are
      reported, every other kind is ignored. */
  function Route(reg: Registry, ev: Event): Action
  {
    match ev
    case KeyEvent(_, _, _) =>
      (match Lookup(reg, ev)
       case Some(target) => Invoked(target, ev)
       case None => Unhandled(ev))
    case ResizeEvent(w, h) => Resized(w, h)
    case ErrorEvent(e) => Failed(e)
    case OtherEvent(_) => Ignored(ev)
  }

  /** Start: a fresh (empty) event channel and empty handler tables. The
      redirect slot is not touched. */
  function Start(t: Terminal): (r: Terminal)
    ensures r.events == []
    ensures r.registry.altInputHandler == t.registry.altInputHandler
    ensures forall ev :: IsKey(ev) ==> TableLookup(r.registry, ev) == None
  {
    Terminal([], Registry(t.registry.altInputHandler, map[], map[]))
  }

  /** The polling goroutine handing one polled event to the channel. */
  function Deliver(t: Terminal, ev: Event): (r: Terminal)
    ensures r.events == t.events + [ev]
    ensures r.registry == t.registry
  {
    t.(events := t.events + [ev])
  }

  /** SetInputHandler: swap the redirect slot and hand back its old content. */
  function SetInputHandler(t: Terminal, ih: Option<PanelId>): (r: (Terminal, Option<PanelId>))
    ensures r.1 == t.registry.altInputHandler
    ensures r.0.registry.altInputHandler == ih
    ensures r.0.registry.runeHandlers == t.registry.runeHandlers
    ensures r.0.registry.keyHandlers == t.registry.keyHandlers
    ensures r.0.events == t.events
  {
    var previous := t.registry.altInputHandler;
    (t.(registry := t.registry.(altInputHandler := ih)), previous)
  }

  /** HandleRune: register h for rune c, replacing any earlier entry. */
  function HandleRune(t: Terminal, c: char, h: HandlerId): (r: Terminal)
    ensures c in r.registry.runeHandlers && r.registry.runeHandlers[c] == h
    ensures forall c' :: c' != c ==> (c' in r.registry.runeHandlers <==> c' in t.registry.runeHandlers)
    ensures forall c' :: c' != c && c' in t.registry.runeHandlers ==>
              r.registry.runeHandlers[c'] == t.registry.runeHandlers[c']
    ensures r.registry.keyHandlers == t.registry.keyHandlers
    ensures r.registry.altInputHandler == t.registry.altInputHandler
    ensures r.events == t.events
  {
    t.(registry := t.registry.(runeHandlers := t.registry.runeHandlers[c := h]))
  }

  /** HandleKey: register h for key k, replacing any earlier entry. */
  function HandleKey(t: Terminal, k: Key, h: HandlerId): (r: Terminal)
    ensures k in r.registry.keyHandlers && r.registry.keyHandlers[k] == h
    ensures forall k' :: k' != k ==> (k' in r.registry.keyHandlers <==> k' in t.registry.keyHandlers)
    ensures forall k' :: k' != k && k' in t.registry.keyHandlers ==>
              r.registry.keyHandlers[k'] == t.registry.keyHandlers[k']
    ensures r.registry.runeHandlers == t.registry.runeHandlers
    ensures r.registry.altInputHandler == t.registry.altInputHandler
    ensures r.events == t.events
  {
    t.(registry := t.registry.(keyHandlers := t.registry.keyHandlers[k := h]))
  }

  /** Resize: the resize hook, which does nothing to the terminal. */
  function Resize(t: Terminal, width: Int64, height: Int64): (r: Terminal)
    ensures r.registry == t.registry && r.events == t.events
  {
    t
  }

  /** RunInputHandlers: take at most one pending event and route it, in the
      order the branches of the source test things: key events first go to
      the redirect panel if one is installed, else to the rune table when the
      rune is non-zero and to the key table when it is zero; resize events go
      to the resize hook; error events become the returned error; any other
      kind falls through. With nothing pending nothing happens. */
  function RunInputHandlers(t: Terminal): (r: Step)
    // nothing pending: no action, nil error, nothing changes
    ensures t.events == [] ==> r == Step(t, Idle, None)
    // otherwise exactly the head is consumed and the routing state is kept
    ensures t.events != [] ==> r.term.events == t.events[1..] && r.term.registry == t.registry
    // the head is routed as Route says
    ensures t.events != [] ==> r.action == Route(t.registry, t.events[0])
    // a handler only ever receives the head, and only when it is a key event
    ensures r.action.Invoked? ==> t.events != [] && r.action.ev == t.events[0] && IsKey(t.events[0])
    // the redirect panel takes every key event, whatever its rune or key
    ensures t.events != [] && IsKey(t.events[0]) && t.registry.altInputHandler.Some? ==>
              r.action == Invoked(Panel(t.registry.altInputHandler.value), t.events[0])
    // an error is returned exactly for an error event
    ensures r.err.Some? <==> t.events != [] && t.events[0].ErrorEvent?
    ensures r.err.Some? ==> r.err.value == EventError(t.events[0].err) && r.action == Failed(t.events[0].err)
  {
    if t.events == [] then
      Step(t, Idle, None)
    else
      var ev := t.events[0];
      var rest := t.(events := t.events[1..]);
      match ev
      case KeyEvent(_, key, ch) =>
        if t.registry.altInputHandler.Some? then
          Step(rest, Invoked(Panel(t.registry.altInputHandler.value), ev), None)
        else if ch != NoRune then
          (if ch in t.registry.runeHandlers
           then Step(rest, Invoked(Callback(t.registry.runeHandlers[ch]), ev), None)
           else Step(rest, Unhandled(ev), None))
        else
          (if key in t.registry.keyHandlers
           then Step(rest, Invoked(Callback(t.registry.keyHandlers[key]), ev), None)
           else Step(rest, Unhandled(ev), None))
      case ResizeEvent(w, h) =>
        Step(Resize(rest, w, h), Resized(w, h), None)
      case ErrorEvent(e) =>
        Step(rest, Failed(e), Some(EventError(e)))
      case OtherEvent(_) =>
        Step(rest, Ignored(ev), None)
  }

  /** The cells Print writes: rune i of msg at column x+i (as a Go int, so
      wrapping past the largest int) of row y, in the given colours. */
  ghost predicate LaidOut(writes: seq<CellWrite>, x: int, y: Int64, fg: Attribute, bg: Attribute, msg: string)
  {
    && |writes| == |msg|
    && forall i :: 0 <= i < |writes| ==> writes[i] == CellWrite(Wrap64(x + i), y, Cell(msg[i], fg, bg))
  }

  /** Print: one SetCell per rune of msg, left to right, advancing x. */
  method Print(x: Int64, y: Int64, fg: Attribute, bg: Attribute, msg: string) returns (writes: seq<CellWrite>)
    ensures LaidOut(writes, x, y, fg, bg, msg)
  {
    writes := [];
    var col := x;
    var i := 0;
    while i < |msg|
      invariant 0 <= i <= |msg|
      invariant col == Wrap64(x + i)
      invariant LaidOut(writes, x, y, fg, bg, msg[..i])
    {
      writes := writes + [CellWrite(col, y, Cell(msg[i], fg, bg))];
      Wrap64Succ(x + i);
      col := Inc64(col);
      i := i + 1;
    }
  }

  /** Printf: Print of the already formatted string. */
  method Printf(x: Int64, y: Int64, fg: Attribute, bg: Attribute, formatted: string) returns (writes: seq<CellWrite>)
    ensures LaidOut(writes, x, y, fg, bg, formatted)
  {
    writes := Print(x, y, fg, bg, formatted);
  }

  /** A screen: the cell last written at each position. */
  type Screen = map<(Int64, Int64), Cell>

  /** The cell at column col of row row, if one has been written there. */
  function CellAt(s: Screen, col: int, row: int): Option<Cell>
  {
    if MinInt64 <= col <= MaxInt64 && MinInt64 <= row <= MaxInt64 && (col, row) in s
    then Some(s[(col, row)]) else None
  }

  /** The screen after the writes are performed in order. */
  function Paint(s: Screen, writes: seq<CellWrite>): Screen
    decreases |writes|
  {
    if writes == [] then s
    else Paint(s[(writes[0].x, writes[0].y) := writes[0].cell], writes[1..])
  }
}
