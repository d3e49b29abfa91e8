# goland: terminal input routing and the terrain grid, in Dafny

This project models two sequential pieces of the goland game:

- **The client's terminal input router** (`client/term.go`). A `Terminal` holds the pending
  terminal events, a rune → handler table, a key → handler table and one redirect slot (the
  "alternate input handler", a panel that takes over all key input while installed).
  `RunInputHandlers` consumes at most one pending event per call and routes it: key events go to
  the redirect panel if one is installed, otherwise to the rune table when the event's rune is
  non-zero and to the key table when it is zero; resize events go to a resize hook that does
  nothing; error events become the returned error; other event kinds (mouse, interrupt, raw, none)
  fall through the `switch` and are ignored. `SetInputHandler` swaps the redirect slot and hands
  back its previous content; `HandleRune`/`HandleKey` insert or replace a table entry. `Print` lays
  a string out on one screen row, rune i at column x+i.
- **The server's terrain grid** (`cmd/goland/map.go`). A fixed glyph → terrain table (`' '` empty,
  `'#'` wall, `'.'` floor), the terrain type predicates, a 256 × 256 map chunk filled with floor,
  and a half-open bounds check guarding grid lookup.

Modelling choices:

- The polling goroutine and the unbuffered channel become a FIFO sequence `Terminal.events`;
  `Deliver` is the polling side handing over one event. The mutex disappears: every operation is
  one atomic step over an immutable value.
- Handler callbacks are opaque and identified by number (`HandlerId` for table callbacks,
  `PanelId` for redirect panels). `RunInputHandlers` returns a `Step`: the new terminal, the
  `Action` taken (which handler was invoked with which event, or that the event was dropped,
  resized, failed or ignored) and the returned error. What a handler does when invoked, including
  changing the registry, is up to its caller; `RunTicks` runs several calls with no change in
  between.
- Events are a tagged union (`Termbox.Event`). Go runes are Dafny `char`s, with `'\0'` as rune 0.
  Go's `int` is `Basics.Int64`, and `Print`'s `x++` wraps from the largest to the smallest int.
- The terrain type constants are 2, 3 and 4, not 0, 1 and 2: `TEmpty = iota` sits in the same
  `const` block as `MAP_WIDTH` and `MAP_HEIGHT` (cmd/goland/map.go:11-18). They are still
  distinct, which is all the predicates rely on.
- The source stores the same `*Terrain` of the glyph table in every cell that uses it; the model
  stores terrain values. The two agree as long as no shared `Terrain` is mutated, and nothing in
  the modelled code mutates one.
- termbox's `ColorDefault` is 0 and `ColorWhite` is 8 (its colours are numbered from zero in the
  order Default, Black, Red, Green, Yellow, Blue, Magenta, Cyan, White). termbox itself is not part
  of this model.

## Model

| member | source | states |
|---|---|---|
| Basics.Wrap64 | client/term.go:132 | the value a Go `int` holds after an arithmetic result v: the unique int64 congruent to v modulo 2^64, and v itself when v fits |
| Basics.Inc64 | client/term.go:132 | `x++` on a Go `int` equals wrapping x+1 |
| Basics.Wrap64Succ | client/term.go:130-133 | incrementing a wrapped column equals wrapping the incremented column, so the loop's column stays x+i modulo 2^64 |
| Term.Start | client/term.go:25-44 | after Start the event queue is empty, the redirect slot is untouched, and no key event finds a table entry |
| Term.Deliver | client/term.go:34-38 | the polling side appends the polled event at the back of the queue and leaves the routing state alone |
| Term.SetInputHandler | client/term.go:58-70 | returns the previously installed redirect (possibly none), installs the new one, and leaves both tables and the queue unchanged |
| Term.HandleRune | client/term.go:113-117 | maps rune c to h, replacing any earlier entry; every other rune entry, the key table, the redirect and the queue are unchanged |
| Term.HandleKey | client/term.go:119-123 | maps key k to h, replacing any earlier entry; every other key entry, the rune table, the redirect and the queue are unchanged |
| Term.Resize | client/term.go:109-111 | the resize hook changes neither the queue nor the routing state |
| Term.RunInputHandlers | client/term.go:72-107 | empty queue: no action, nil error, nothing changes; otherwise exactly the head is consumed, the rest keeps its order, the routing state is kept, and the head is routed as `Route` says; a handler only ever receives the head and only a key event; an installed redirect takes every key event; an error is returned exactly for an error event |
| Term.Print | client/term.go:129-134 | exactly one cell write per rune of msg, the i-th writing rune i at column x+i (Go int arithmetic) of row y in the given colours |
| Term.Printf | client/term.go:136-139 | writes the formatted string exactly as Print does |
| TermProperties.SetInputHandlerRestore | client/term.go:58-70 | re-installing the value SetInputHandler handed back restores the terminal exactly |
| TermProperties.RedirectTakesEveryKey | client/term.go:80-82 | once a panel is installed it receives every key event, whatever the tables hold for its rune or key |
| TermProperties.ClearingRedirectRestoresTables | client/term.go:80-93 | with the redirect cleared, a key event is routed by the tables: to the entry for its rune (non-zero rune) or key (rune 0), or dropped without error |
| TermProperties.HandleRuneRoutes | client/term.go:85-88 | after HandleRune(c, h) and with no redirect, a key event with rune c reaches h and no earlier handler |
| TermProperties.HandleRuneRoutesOthersAsBefore | client/term.go:113-117 | HandleRune(c, h) changes the routing of no event except key events carrying rune c |
| TermProperties.HandleRuneLastWins | client/term.go:113-117 | two registrations for one rune leave the same terminal as the last one alone |
| TermProperties.HandleKeyRoutes | client/term.go:89-92 | after HandleKey(k, h) and with no redirect, a key event with rune 0 and key k reaches h |
| TermProperties.HandleKeyRoutesOthersAsBefore | client/term.go:119-123 | HandleKey(k, h) changes the routing of no event except key events with rune 0 and key k |
| TermProperties.HandleKeyLastWins | client/term.go:119-123 | two registrations for one key leave the same terminal as the last one alone |
| TermProperties.TicksRouteInOrder | client/term.go:72-107 | n calls consume min(n, pending) events oldest first, the i-th call routes the i-th pending event, calls on an empty queue do nothing, and the routing state never changes |
| TermProperties.DeliverAllAppends | client/term.go:34-38 | events handed over in sequence join the back of the queue in that order |
| TermProperties.DeliveredEventsRoutedInOrder | client/term.go:34-38 | every delivered event is routed exactly once, in delivery order, after those already pending: none is dropped, reordered or coalesced |
| TermProperties.ErrorThenNextEventRoutedNormally | client/term.go:99-100 | an error event is returned as an error and the next call routes the next event with the unchanged routing state |
| TermProperties.RuneThenRedirectSession | client/term.go:80-88 | a handler registered for 'q' gets a 'q' key event; after a panel is installed, the panel gets the next 'q' instead |
| TermProperties.ThreeEventsThreeCalls | client/term.go:72-107 | resize(80, 24), 'a', 'b' are consumed one per call, in that order |
| TermProperties.PrintPaintsRow | client/term.go:129-134 | when the row segment fits in an int, performing Print's writes puts rune i at (x+i, y) and leaves every other screen position as it was |
| GoLandMap.GlyphToTerrain | cmd/goland/map.go:25-34 | `' '` gives an empty terrain, `'#'` a wall, `'.'` a floor, each drawn with that glyph; every other rune gives nil |
| GoLandMap.TypePredicatesExclusive | cmd/goland/map.go:15-57 | the predicates `IsEmpty`, `IsWall` and `IsFloor` compare a terrain's type with the constants TEmpty, TWall and TFloor; those constants are distinct, so at most one of the three predicates holds of any terrain |
| GoLandMap.GlyphTableEntries | cmd/goland/map.go:25-29 | each table entry satisfies a type predicate and carries its own glyph; only the wall is an edge; none is seen; all are lit |
| GoLandMap.NewMapChunk | cmd/goland/map.go:68-84 | size (256, 256), rectangle [0,256) × [0,256), 256 columns of 256 cells, every cell the floor terrain |
| GoLandMap.HasCell | cmd/goland/map.go:86-89 | true exactly when Min.X <= x < Max.X and Min.Y <= y < Max.Y |
| GoLandMap.GetTerrain | cmd/goland/map.go:91-97 | outside the rectangle (nil, false); inside, the index is in range and the result is (Locations[x][y], true) |
| GoLandMap.FreshChunkLookup | cmd/goland/map.go:68-97 | a fresh chunk is well formed, and lookup yields the floor terrain inside [0,256) × [0,256) and (nil, false) elsewhere |

## Left out

- The polling goroutine's blocking loop and the channel's blocking hand-off (client/term.go:34-38): concurrency; the channel is a FIFO sequence the environment appends to with `Deliver`.
- The mutex (client/term.go:22, 61-62, 114-115, 120-121): every operation is modelled as atomic; `RunInputHandlers` reading the tables without the lock is a concurrency concern.
- termbox and tulib calls (`Init`, `Close`, `Clear`, `Flush`, `PollEvent`, `KeyToString`), hence `End`, `Clear` and `Flush` (client/term.go:46-56): foreign terminal I/O. `PrintCell` (client/term.go:125-127) is a single `SetCell` and is left out with them.
- The panic when termbox cannot start (client/term.go:26-29): process-fatal I/O.
- Logging (`log.Printf`) and string formatting (`fmt.Sprintf`, `fmt.Errorf`): `Printf` takes the already formatted string and the returned error keeps only the event's error.
- The field `AltChan` (client/term.go:17): nothing reads or writes it.
- What handler callbacks and panels do when invoked: they are opaque and the model only records which one was invoked with which event.
- A nil `KeyHandler` stored in a table, and a non-nil interface holding a nil panel: handler IDs are never nil.
- Go runes that are not Unicode scalar values: runes are Dafny `char`s; decoding of invalid UTF-8 in `Print`'s `range` is not modelled.
- `Terrain.Draw` (cmd/goland/map.go:43-45): a single tulib buffer write, foreign I/O.
- `MapChunk.Objects`, `Npcs` and `Players` (cmd/goland/map.go:63-65): their types are not part of this model and nothing here uses them.
- `image.Rect`'s swapping of reversed corners: the chunk's rectangle is built with ordered corners, so it does not arise.
- GoLandMap.GetTerrain: requires the chunk to be well formed (its grid covers its rectangle); on a malformed chunk the source would panic with an index out of range, which is not modelled.
- Term.HandleRune: every modelled Terminal has been through `Start`; before `Start` the rune table is a nil Go map and the write at client/term.go:116 panics, which is not modelled.
- Term.HandleKey: every modelled Terminal has been through `Start`; before `Start` the key table is a nil Go map and the write at client/term.go:122 panics, which is not modelled.
- Term.Start: the polling goroutine left writing to the previous channel after a second `Start` is not modelled; the new queue is simply empty.
