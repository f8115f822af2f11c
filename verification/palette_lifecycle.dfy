/**
  The tile palette lifecycle of the Tilemaps editor plugin: a claim counter,
  an optional palette window that may have been disposed behind the plugin's
  back, a loading flag, a cached settings snapshot and the current tile
  drawing source. Every handler of the plugin is a pure transition on `State`.
*/
module PaletteLifecycle {
  import opened Wrappers
  import opened UserData

  const Int32Min: int := -0x8000_0000
  const Int32Max: int := 0x7FFF_FFFF

  /** A C# `int`. */
  type Int32 = x: int | -0x8000_0000 <= x <= 0x7FFF_FFFF

  /** `x++` on a C# `int` (unchecked): one more, modulo 2^32. */
  function Increment(x: Int32): (r: Int32)
    ensures (r - x) % 0x1_0000_0000 == 1
    ensures x < Int32Max ==> r == x + 1
  {
    if x == Int32Max then Int32Min else x + 1
  }

  /** `x--` on a C# `int` (unchecked): one less, modulo 2^32. */
  function Decrement(x: Int32): (r: Int32)
    ensures (x - r) % 0x1_0000_0000 == 1
    ensures x > Int32Min ==> r == x - 1
  {
    if x == Int32Min then Int32Max else x - 1
  }

  /** Identity of a tile drawing source object. */
  type DrawSourceRef = nat

  /** The shared no-op drawing source that stands in for null. */
  const EmptyTileDrawingSource: DrawSourceRef := 0

  /** The content a newly constructed palette would write before any settings are applied. */
  const FreshPaletteData: Body := []

  /** A palette window: its identity, whether the host disposed it, and its own settings. */
  datatype Palette = Palette(handle: nat, disposed: bool, data: Body)

  /** The reason a closing form reports; only UserClosing matters to the plugin. */
  datatype CloseReason = UserClosing | OtherReason

  /**
    What the host does when the plugin calls Close() on the palette: either the
    form closes and raises FormClosed with some reason, or (a form whose window
    was never created) it is disposed without raising anything, or a
    FormClosing handler cancels the close and nothing happens.
  */
  datatype CloseOutcome = RaisesFormClosed(reason: CloseReason) | DisposesSilently | Cancelled

  /** The dock content type the host asks the plugin to recreate from a saved layout. */
  datatype DockContentType = TilePaletteType | OtherDockType(name: string)

  /** What DeserializeDockContent hands back: our palette, or whatever the base class builds. */
  datatype DockContent = PaletteContent(palette: Palette) | BaseContent(ofType: string)

  datatype State = State(
    isLoading: bool,
    palette: Option<Palette>,
    pending: Int32,
    cache: Option<Element>,
    drawSource: DrawSourceRef,
    nextHandle: nat)

  /** The plugin as constructed: no palette, no claims, nothing cached, the empty drawing source. */
  const InitialState: State := State(false, None, 0, None, EmptyTileDrawingSource, 0)

  /** A palette reference that is non-null and not disposed. */
  predicate IsLive(p: Option<Palette>) {
    p.Some? && !p.value.disposed
  }

  /** The palette's settings written into a fresh element carrying the palette tag and no id. */
  function Snapshot(p: Palette): Element {
    Element(ElementNameTilePalette, None, p.data)
  }

  /** The palette after it has been handed `settings` to load; null leaves it as it is. */
  function Applied(p: Palette, settings: Option<Element>): Palette {
    match settings
    case Some(e) => p.(data := e.body)
    case None => p
  }

  /** Everything but the palette reference and the handle counter is as in `s`. */
  predicate SameBesidesPalette(s: State, t: State) {
    t.isLoading == s.isLoading && t.pending == s.pending && t.cache == s.cache
    && t.drawSource == s.drawSource
  }

  // ---------------------------------------------------------------------------
  // Tile drawing source

  /** The setter of the drawing source: null is replaced by the shared empty source. */
  function SetTileDrawingSource(s: State, value: Option<DrawSourceRef>): (r: State)
    ensures value.None? ==> r.drawSource == EmptyTileDrawingSource
    ensures value.Some? ==> r.drawSource == value.value
    ensures r.(drawSource := s.drawSource) == s
  {
    s.(drawSource := value.GetOr(EmptyTileDrawingSource))
  }

  // ---------------------------------------------------------------------------
  // Creating, claiming and releasing the palette

  datatype Requested = Requested(state: State, palette: Palette, shown: bool)

  /**
    Makes sure a live palette exists, creating one (and loading the cached
    settings into it) when the reference is null or disposed, and docks it
    into the main window unless the plugin is restoring a session.
  */
  function RequestTilePalette(s: State): (r: Requested)
    ensures IsLive(r.state.palette) && r.state.palette == Some(r.palette)
    ensures IsLive(s.palette) ==> r.palette == s.palette.value && r.state.nextHandle == s.nextHandle
    ensures !IsLive(s.palette) ==>
      && r.palette.handle == s.nextHandle
      && r.state.nextHandle == s.nextHandle + 1
      && r.palette.data == (if s.cache.Some? then s.cache.value.body else FreshPaletteData)
    ensures r.shown <==> !s.isLoading
    ensures SameBesidesPalette(s, r.state)
  {
    var (p, next) :=
      if s.palette.None? || s.palette.value.disposed then
        (Applied(Palette(s.nextHandle, false, FreshPaletteData), s.cache), s.nextHandle + 1)
      else
        (s.palette.value, s.nextHandle);
    Requested(s.(palette := Some(p), nextHandle := next), p, !s.isLoading)
  }

  datatype Pushed = Pushed(state: State, palette: Option<Palette>, shown: bool)

  /** Takes a claim on the palette; the first claim makes sure a palette exists. */
  function PushTilePalette(s: State): (r: Pushed)
    ensures r.state.pending == Increment(s.pending)
    ensures r.palette == r.state.palette
    ensures s.pending == 0 ==>
      && r.state == RequestTilePalette(s.(pending := 1)).state
      && r.shown == RequestTilePalette(s.(pending := 1)).shown
    ensures s.pending == 0 ==>
      && IsLive(r.state.palette)
      && (IsLive(s.palette) ==> r.state.palette == s.palette && r.state.nextHandle == s.nextHandle)
      && (!IsLive(s.palette) ==>
            && r.state.palette.value.handle == s.nextHandle
            && r.state.nextHandle == s.nextHandle + 1
            && r.state.palette.value.data == (if s.cache.Some? then s.cache.value.body else FreshPaletteData))
      && (r.shown <==> !s.isLoading)
    ensures s.pending != 0 ==> r.state == s.(pending := Increment(s.pending)) && !r.shown
    ensures r.state.isLoading == s.isLoading && r.state.cache == s.cache
    ensures r.state.drawSource == s.drawSource
  {
    var claimed := s.(pending := Increment(s.pending));
    if claimed.pending == 1 then
      var req := RequestTilePalette(claimed);
      Pushed(req.state, req.state.palette, req.shown)
    else
      Pushed(claimed, claimed.palette, false)
  }

  /**
    The palette's FormClosed handler: the palette's settings are cached, the
    reference is dropped and, when the user closed it, one claim is given up.
    The handler reads the palette field unconditionally, so it must be set.
  */
  function TilePaletteFormClosed(s: State, reason: CloseReason): (r: State)
    requires s.palette.Some?
    ensures r.cache == Some(Snapshot(s.palette.value))
    ensures r.palette.None?
    ensures r.pending == (if reason == UserClosing then Decrement(s.pending) else s.pending)
    ensures r.isLoading == s.isLoading && r.drawSource == s.drawSource && r.nextHandle == s.nextHandle
  {
    var cached := s.(cache := Some(Snapshot(s.palette.value)), palette := None);
    if reason == UserClosing then cached.(pending := Decrement(cached.pending)) else cached
  }

  /**
    Gives up a claim. With no claims it does nothing; on the last claim with a
    palette present it closes the palette and leaves the counter to the close
    handler; otherwise it only decrements the counter.
  */
  function PopTilePalette(s: State, outcome: CloseOutcome): (r: State)
    ensures s.pending == 0 ==> r == s
    ensures s.pending == 1 && s.palette.Some? ==>
      && (outcome.RaisesFormClosed? ==> r == TilePaletteFormClosed(s, outcome.reason))
      && (outcome.DisposesSilently? ==> r == s.(palette := Some(s.palette.value.(disposed := true))))
      && (outcome.Cancelled? ==> r == s)
      && r.pending == (if outcome == RaisesFormClosed(UserClosing) then 0 else 1)
    ensures s.pending != 0 && !(s.pending == 1 && s.palette.Some?) ==>
      r == s.(pending := Decrement(s.pending))
  {
    if s.pending == 0 then s
    else if s.pending == 1 && s.palette.Some? then
      match outcome
      case RaisesFormClosed(reason) => TilePaletteFormClosed(s, reason)
      case DisposesSilently => s.(palette := Some(s.palette.value.(disposed := true)))
      case Cancelled => s
    else s.(pending := Decrement(s.pending))
  }

  /**
    The host disposing the palette without the plugin's involvement: the
    field still refers to the same palette, now dead, with its settings.
  */
  function PaletteDisposedByHost(s: State): (r: State)
    ensures !IsLive(r.palette)
    ensures r.palette.Some? <==> s.palette.Some?
    ensures s.palette.Some? ==> r.palette == Some(s.palette.value.(disposed := true))
    ensures s.palette.None? ==> r == s
    ensures SameBesidesPalette(s, r) && r.nextHandle == s.nextHandle
  {
    match s.palette
    case Some(p) => s.(palette := Some(p.(disposed := true)))
    case None => s
  }

  // ---------------------------------------------------------------------------
  // Session layout and user data

  datatype Deserialized = Deserialized(state: State, content: DockContent, shown: bool)

  /**
    Recreates dock content from a saved layout while the loading flag is set:
    the palette type yields a live palette that is never docked here (the host
    docks it itself) and takes no claim; any other type goes to the base class.
  */
  function DeserializeDockContent(s: State, contentType: DockContentType): (r: Deserialized)
    ensures !r.state.isLoading && !r.shown
    ensures contentType == TilePaletteType ==>
      r.state == RequestTilePalette(s.(isLoading := true)).state.(isLoading := false)
    ensures contentType == TilePaletteType ==>
      && IsLive(r.state.palette)
      && r.content == PaletteContent(r.state.palette.value)
      && (IsLive(s.palette) ==> r.state.palette == s.palette && r.state.nextHandle == s.nextHandle)
      && (!IsLive(s.palette) ==>
            && r.state.palette.value.handle == s.nextHandle
            && r.state.nextHandle == s.nextHandle + 1
            && r.state.palette.value.data == (if s.cache.Some? then s.cache.value.body else FreshPaletteData))
      && r.state.pending == s.pending && r.state.cache == s.cache && r.state.drawSource == s.drawSource
    ensures contentType.OtherDockType? ==>
      r.state == s.(isLoading := false) && r.content == BaseContent(contentType.name)
  {
    var loading := s.(isLoading := true);
    match contentType
    case TilePaletteType =>
      var req := RequestTilePalette(loading);
      Deserialized(req.state.(isLoading := false), PaletteContent(req.palette), req.shown)
    case OtherDockType(name) =>
      Deserialized(loading.(isLoading := false), BaseContent(name), false)
  }

  datatype Saved = Saved(state: State, node: seq<Element>)

  /**
    Persists the palette settings into `node`: a present palette is snapshot
    into the cache first, and a non-empty cache is appended as a copy.
  */
  function SaveUserData(s: State, node: seq<Element>): (r: Saved)
    ensures |node| <= |r.node| <= |node| + 1 && r.node[..|node|] == node
    ensures |r.node| == |node| + 1 <==> r.state.cache.Some? && !r.state.cache.value.IsEmpty()
    ensures |r.node| == |node| + 1 ==> r.node[|node|] == r.state.cache.value
    ensures s.palette.Some? ==> r.state.cache == Some(Snapshot(s.palette.value))
    ensures r.state == s.(cache := r.state.cache)
    ensures s.palette.None? ==> r.state == s
  {
    var t := if s.palette.Some? then s.(cache := Some(Snapshot(s.palette.value))) else s;
    if t.cache.Some? && !t.cache.value.IsEmpty() then Saved(t, node + [t.cache.value])
    else Saved(t, node)
  }

  /**
    Restores the palette settings from `node`: the first accepted settings
    element replaces the cache (otherwise the cache is kept), and a present
    palette loads whatever the cache then holds.
  */
  function LoadUserData(s: State, node: seq<Element>): (r: State)
    ensures !r.isLoading
    ensures (forall i :: 0 <= i < |node| ==> !IsPaletteSettings(node[i])) ==> r.cache == s.cache
    ensures (exists i :: 0 <= i < |node| && IsPaletteSettings(node[i])) ==>
      exists i :: 0 <= i < |node| && r.cache == Some(node[i])
        && IsPaletteSettings(node[i]) && forall j :: 0 <= j < i ==> !IsPaletteSettings(node[j])
    ensures s.palette.Some? ==> r.palette == Some(Applied(s.palette.value, r.cache))
    ensures s.palette.None? ==> r.palette.None?
    ensures r.pending == s.pending && r.drawSource == s.drawSource && r.nextHandle == s.nextHandle
  {
    var loading := s.(isLoading := true);
    var cached :=
      match FirstPaletteSettings(node)
      case Some(i) => loading.(cache := Some(node[i]))
      case None => loading;
    var applied :=
      match cached.palette
      case Some(p) => cached.(palette := Some(Applied(p, cached.cache)))
      case None => cached;
    applied.(isLoading := false)
  }
}
