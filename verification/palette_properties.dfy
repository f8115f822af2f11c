/**
  Properties of the palette lifecycle over several calls: claims against
  palette existence along traces of host and tool events, the settings
  surviving a close or a save/load cycle, and the scenarios that leave the
  claim counter out of step with the palette.
*/
module PaletteProperties {
  import opened Wrappers
  import opened UserData
  import opened PaletteLifecycle

  /** Everything the host or an editing tool can do to the plugin. */
  datatype Event =
    | Push
    | Pop(outcome: CloseOutcome)
    | Closed(reason: CloseReason)
    | Deserialize(contentType: DockContentType)
    | Save(node: seq<Element>)
    | Load(node: seq<Element>)
    | HostDispose
    | SetSource(value: Option<DrawSourceRef>)

  /** One event; a palette that is null or disposed cannot close, so Closed needs a live one. */
  function Step(s: State, e: Event): State {
    match e
    case Push => PushTilePalette(s).state
    case Pop(outcome) => PopTilePalette(s, outcome)
    case Closed(reason) => if IsLive(s.palette) then TilePaletteFormClosed(s, reason) else s
    case Deserialize(t) => DeserializeDockContent(s, t).state
    case Save(node) => SaveUserData(s, node).state
    case Load(node) => LoadUserData(s, node)
    case HostDispose => PaletteDisposedByHost(s)
    case SetSource(v) => SetTileDrawingSource(s, v)
  }

  function Run(s: State, events: seq<Event>): State
    decreases |events|
  {
    if |events| == 0 then s else Run(Step(s, events[0]), events[1..])
  }

  /** The counter is non-negative and a live palette is always backed by a claim. */
  predicate ClaimsCoverPalette(s: State) {
    s.pending >= 0 && (IsLive(s.palette) ==> s.pending >= 1)
  }

  /** The intended invariant: the palette is live exactly while someone holds a claim. */
  predicate ClaimsMatchPalette(s: State) {
    s.pending >= 0 && (s.pending > 0 <==> IsLive(s.palette))
  }

  /** Every event except recreating the palette from a saved layout, which takes no claim. */
  predicate ClaimTaking(e: Event) {
    e != Deserialize(TilePaletteType)
  }

  /** The events an editing tool causes: claims, releases whose Close reports UserClosing, user data. */
  predicate ToolEvent(e: Event) {
    || e == Push
    || e == Pop(RaisesFormClosed(UserClosing))
    || e.Save? || e.Load? || e.SetSource?
  }

  // ---------------------------------------------------------------------------
  // Invariants

  /** Below the top of the counter's range, one event raises the counter by at most one. */
  lemma StepKeepsClaimsCoverPalette(s: State, e: Event)
    requires ClaimsCoverPalette(s) && ClaimTaking(e) && s.pending < Int32Max
    ensures ClaimsCoverPalette(Step(s, e))
    ensures Step(s, e).pending <= s.pending + 1
  {
  }

  /**
    Without palette-type layout restores, and with fewer events than it takes
    to overflow the counter, the counter never goes negative.
  */
  lemma {:induction false} RunKeepsClaimsCoverPalette(s: State, events: seq<Event>)
    requires ClaimsCoverPalette(s) && s.pending + |events| <= Int32Max
    requires forall i :: 0 <= i < |events| ==> ClaimTaking(events[i])
    ensures ClaimsCoverPalette(Run(s, events))
    decreases |events|
  {
    if |events| > 0 {
      StepKeepsClaimsCoverPalette(s, events[0]);
      RunKeepsClaimsCoverPalette(Step(s, events[0]), events[1..]);
    }
  }

  lemma StepKeepsClaimsMatchPalette(s: State, e: Event)
    requires ClaimsMatchPalette(s) && ToolEvent(e) && s.pending < Int32Max
    ensures ClaimsMatchPalette(Step(s, e))
    ensures Step(s, e).pending <= s.pending + 1
  {
  }

  /**
    Along traces of pushes, releases whose Close reports UserClosing, and
    user-data and drawing-source events, too short to overflow the counter,
    the palette is live exactly while claims are outstanding.
  */
  lemma {:induction false} RunKeepsClaimsMatchPalette(s: State, events: seq<Event>)
    requires ClaimsMatchPalette(s) && s.pending + |events| <= Int32Max
    requires forall i :: 0 <= i < |events| ==> ToolEvent(events[i])
    ensures ClaimsMatchPalette(Run(s, events))
    decreases |events|
  {
    if |events| > 0 {
      StepKeepsClaimsMatchPalette(s, events[0]);
      RunKeepsClaimsMatchPalette(Step(s, events[0]), events[1..]);
    }
  }

  /** Every palette handed out so far has a handle below the next one to be allocated. */
  predicate HandlesBelowNext(s: State) {
    s.palette.Some? ==> s.palette.value.handle < s.nextHandle
  }

  lemma StepKeepsHandlesBelowNext(s: State, e: Event)
    requires HandlesBelowNext(s)
    ensures HandlesBelowNext(Step(s, e))
    ensures Step(s, e).nextHandle >= s.nextHandle
  {
  }

  lemma {:induction false} RunKeepsHandlesBelowNext(s: State, events: seq<Event>)
    requires HandlesBelowNext(s)
    ensures HandlesBelowNext(Run(s, events))
    ensures Run(s, events).nextHandle >= s.nextHandle
    decreases |events|
  {
    if |events| > 0 {
      StepKeepsHandlesBelowNext(s, events[0]);
      RunKeepsHandlesBelowNext(Step(s, events[0]), events[1..]);
    }
  }

  lemma InitialStateIsConsistent()
    ensures ClaimsMatchPalette(InitialState) && ClaimsCoverPalette(InitialState)
    ensures HandlesBelowNext(InitialState)
  {
  }

  // ---------------------------------------------------------------------------
  // The counter is a 32-bit int

  /**
    A claim at the top of the range wraps the counter to the bottom and opens
    nothing; a release at the bottom wraps it to the top.
  */
  lemma ClaimCounterWraps(s: State, outcome: CloseOutcome)
    ensures s.pending == Int32Max ==> PushTilePalette(s).state == s.(pending := Int32Min)
    ensures s.pending == Int32Max ==> !PushTilePalette(s).shown
    ensures s.pending == Int32Min ==> PopTilePalette(s, outcome) == s.(pending := Int32Max)
  {
  }

  // ---------------------------------------------------------------------------
  // Claims and releases

  /** A further claim is undone by its release: with a claim already held, nothing else moves. */
  lemma PopUndoesPush(s: State, outcome: CloseOutcome)
    requires 1 <= s.pending < Int32Max
    ensures PopTilePalette(PushTilePalette(s).state, outcome) == s
  {
  }

  /** The first claim opens a palette and releasing it closes that palette, keeping its settings. */
  lemma FirstClaimReleaseClosesPalette(s: State)
    requires s.pending == 0
    ensures var pushed := PushTilePalette(s).state;
      var popped := PopTilePalette(pushed, RaisesFormClosed(UserClosing));
      && popped.pending == 0 && popped.palette.None?
      && popped.cache == Some(Snapshot(pushed.palette.value))
  {
  }

  /** Releasing without a claim changes nothing, whatever Close would do. */
  lemma UnbalancedPopIsIgnored(s: State, outcome: CloseOutcome)
    requires s.pending == 0
    ensures PopTilePalette(s, outcome) == s
  {
  }

  /** Request, request, release, release: one palette is created, kept over the first release, closed by the second. */
  lemma TwoClaimsShareOnePalette()
    ensures var s1 := Step(InitialState, Push);
      var s2 := Step(s1, Push);
      var s3 := Step(s2, Pop(RaisesFormClosed(UserClosing)));
      var s4 := Step(s3, Pop(RaisesFormClosed(UserClosing)));
      && IsLive(s1.palette) && s1.palette.value.handle == 0
      && s2.palette == s1.palette && s3.palette == s1.palette
      && s3.pending == 1 && s4.pending == 0 && s4.palette.None?
      && s4.nextHandle == 1
  {
  }

  /** A claim followed by the user closing the palette drops the claim; a later release is ignored. */
  lemma UserCloseDropsTheClaim(outcome: CloseOutcome)
    ensures var s1 := Step(InitialState, Push);
      var s2 := Step(s1, Closed(UserClosing));
      var s3 := Step(s2, Pop(outcome));
      && s1.pending == 1 && s2.pending == 0 && s2.palette.None?
      && s3 == s2
  {
  }

  /**
    With two claims held, the user closing the palette leaves one claim and
    no palette, and a further claim does not bring the palette back.
  */
  lemma UserCloseWithTwoClaimsLosesPalette()
    ensures var s := Run(InitialState, [Push, Push, Closed(UserClosing), Push]);
      s.pending == 2 && s.palette.None? && !ClaimsMatchPalette(s)
  {
  }

  /**
    A palette restored from the saved layout holds no claim, so the user
    closing it drives the counter to -1, and the next claim opens no palette.
  */
  lemma RestoredPaletteUserCloseGoesNegative()
    ensures var s := Run(InitialState, [Deserialize(TilePaletteType), Closed(UserClosing)]);
      s.pending == -1 && s.palette.None?
      && PushTilePalette(s).state.pending == 0 && PushTilePalette(s).state.palette.None?
  {
  }

  /** Which palette a request ends with, and the state it leaves, do not depend on the loading flag; only Show does. */
  lemma RequestIgnoresLoadingFlag(s: State, loading: bool)
    ensures var q := RequestTilePalette(s);
      var l := RequestTilePalette(s.(isLoading := loading));
      && l.state == q.state.(isLoading := loading)
      && l.palette == q.palette
      && (l.shown <==> !loading)
  {
  }

  /**
    Restoring the palette from the saved layout creates (or reuses) exactly
    the palette a request from the same state would, without showing it and
    without a claim. Beyond the restore's own contract this adds only that the
    loading flag does not affect the request (`RequestIgnoresLoadingFlag`).
  */
  lemma DeserializeIsUnshownRequest(s: State)
    ensures var d := DeserializeDockContent(s, TilePaletteType);
      var q := RequestTilePalette(s);
      && d.state == q.state.(isLoading := false)
      && d.content == PaletteContent(q.palette)
      && !d.shown
  {
    RequestIgnoresLoadingFlag(s, true);
  }

  /** The first claim after a layout restore adopts the restored palette and shows it. */
  lemma RestoredPaletteIsReusedByFirstClaim(s: State)
    requires s.pending == 0
    ensures var d := DeserializeDockContent(s, TilePaletteType);
      var p := PushTilePalette(d.state);
      && p.state.palette == d.state.palette && d.content == PaletteContent(p.state.palette.value)
      && p.state.pending == 1 && p.shown && p.state.nextHandle == d.state.nextHandle
  {
  }

  // ---------------------------------------------------------------------------
  // Settings survive closing and sessions

  /** A palette closed for any reason and requested again comes back as a new window with its old settings. */
  lemma ReopenRestoresSettings(s: State, reason: CloseReason)
    requires s.palette.Some? && HandlesBelowNext(s)
    ensures var r := RequestTilePalette(TilePaletteFormClosed(s, reason));
      r.palette.data == s.palette.value.data && r.palette.handle != s.palette.value.handle
  {
  }

  /**
    Saving while a palette with settings is open and loading the result into a
    fresh plugin caches the same settings, under the palette tag with index 0,
    and the next palette created gets them back.
  */
  lemma SaveLoadRoundTrip(s: State, node: seq<Element>)
    requires s.palette.Some? && |s.palette.value.data| > 0
    requires forall i :: 0 <= i < |node| ==> !IsPaletteSettings(node[i])
    ensures var saved := SaveUserData(s, node).node;
      var loaded := LoadUserData(InitialState, saved);
      && loaded.cache == Some(Snapshot(s.palette.value))
      && loaded.cache.value.name == ElementNameTilePalette && loaded.cache.value.PaletteIndex() == 0
      && RequestTilePalette(loaded).palette.data == s.palette.value.data
  {
  }

  /**
    A palette disposed by the host is still referenced, so the next save
    snapshots its settings into the cache, and the next request replaces it by
    a new palette that gets those settings back.
  */
  lemma HostDisposalKeepsSettingsThroughSave(s: State, node: seq<Element>)
    requires s.palette.Some? && HandlesBelowNext(s)
    ensures var saved := SaveUserData(PaletteDisposedByHost(s), node).state;
      var q := RequestTilePalette(saved);
      && saved.cache == Some(Snapshot(s.palette.value))
      && q.palette.data == s.palette.value.data
      && q.palette.handle != s.palette.value.handle
  {
  }

  /** A palette whose settings are empty leaves nothing in the saved user data. */
  lemma EmptySettingsAreNotSaved(s: State, node: seq<Element>)
    requires s.palette.Some? && |s.palette.value.data| == 0
    ensures SaveUserData(s, node).node == node
  {
  }

  // ---------------------------------------------------------------------------
  // Drawing source

  /** Assigning the drawing source twice keeps only the second assignment, null included. */
  lemma DrawingSourceLastWriteWins(s: State, v: Option<DrawSourceRef>, w: Option<DrawSourceRef>)
    ensures SetTileDrawingSource(SetTileDrawingSource(s, v), w) == SetTileDrawingSource(s, w)
  {
  }

  /** No palette event touches the drawing source. */
  lemma {:induction false} PaletteEventsKeepDrawingSource(s: State, events: seq<Event>)
    requires forall i :: 0 <= i < |events| ==> !events[i].SetSource?
    ensures Run(s, events).drawSource == s.drawSource
    decreases |events|
  {
    if |events| > 0 {
      PaletteEventsKeepDrawingSource(Step(s, events[0]), events[1..]);
    }
  }
}
