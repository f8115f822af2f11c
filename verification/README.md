# Tilemaps editor plugin: tile palette lifecycle and tileset invalidation

A Dafny model of the two pieces of logic inside the Duality editor's
`TilemapsEditorPlugin`.

1. **The tile palette lifecycle.** The plugin keeps:
   - a claim counter (`pendingLocalTilePalettes`);
   - an optional palette window, which the host may have disposed;
   - an `isLoading` flag;
   - a cached settings element;
   - the current tile drawing source.

   Editing tools push and pop claims. The first claim creates and docks the
   palette. The last release closes it. The palette's close handler caches
   the palette's settings and gives up a claim when the user closed it. The
   session save and load callbacks persist the cached settings under a
   `TilePalette` element.
2. **Tileset invalidation.** When a pixmap is modified, every loaded tileset
   that is compiled and draws from that pixmap is recompiled. One
   change notification then names all of them, without flagging anything as
   unsaved. Two host events feed this path: a file-level "resource modified"
   event and an "object property changed" event that carries several
   resources.

Files:

- `wrappers.dfy`: `Option`, used for every nullable reference.
- `user_data.dfy` (module `UserData`): the settings element (tag, optional
  `id`, opaque body) and the search the load loop performs.
- `palette_lifecycle.dfy` (module `PaletteLifecycle`): the plugin state and
  one pure transition per handler.
- `palette_properties.dfy` (module `PaletteProperties`): event traces,
  invariants over them, example scenarios (two claims sharing one palette,
  a user close, a release with no claims), and settings round trips. The
  A/B/C recompile example is in `invalidation_properties.dfy`.
- `tileset_invalidation.dfy` (module `TilesetInvalidation`): a reference
  definition of the scan (`Modified`, `ModifiedAll`). It also holds methods
  that follow the handlers loop for loop, each proved equal to the
  reference.
- `invalidation_properties.dfy` (module `InvalidationProperties`): lemmas
  about the scan and about batches of modified resources.

Modelling choices:

- **Objects as values.** Palettes and tilesets are values with an identity
  field (`handle`). A new palette takes its handle from `nextHandle` in the
  state, so "a new palette" and "the same palette" can be told apart.
- **Palette settings.** The palette's own `SaveUserData` and `LoadUserData`
  are opaque. Saving writes the palette's `data` as the body of a fresh
  `TilePalette` element that has no `id`. Loading a non-null element sets
  `data` to that element's body.
- **Closing the palette.** `Close()` on the palette is host behaviour, so
  `PopTilePalette` takes it as a parameter (`CloseOutcome`). A Windows
  Forms form can do one of three things:
  - raise FormClosed with some reason;
  - dispose itself silently, when its window was never created;
  - do nothing, when a FormClosing handler cancels the close (`Cancelled`).

  For a shown form, a programmatic Close reports `UserClosing`. With that
  outcome the release of the last claim returns the counter to 0.
- **The claim counter.** It is a C# `int` (`Int32`). `++` and `--` are
  unchecked and wrap modulo 2^32 (`Increment`, `Decrement`,
  `ClaimCounterWraps`). The counter is not assumed non-negative:
  - A palette restored from the saved layout (`DeserializeDockContent`)
    takes no claim. If the user then closes it, the counter drops to -1
    (`RestoredPaletteUserCloseGoesNegative`).
  - If the user closes the palette while two claims are held, one claim is
    left with no palette. The next push does not reopen the palette
    (`UserCloseWithTwoClaimsLosesPalette`).

  Two invariants are proved under the conditions that make them hold. Both
  also need the trace to be too short to push the counter past `Int32Max`:
  - `ClaimsCoverPalette` (the counter is non-negative and a live palette is
    claimed) holds when no palette-type layout restore occurs.
  - `ClaimsMatchPalette` (the palette is live exactly while claims are
    outstanding) holds along traces of pushes, user-data events and pops
    whose Close reports `UserClosing`.
- **The close handler.** `TilePaletteFormClosed` requires a non-null
  palette. The handler dereferences the palette field without a check, and
  only the palette it was attached to raises it.
- **Resource references.** They compare by identity, as natural-number ids.
  A tileset recompile is a counter (`compilations`) that goes up by one
  (`Bumped`).
- **The change notification.** `NotifyObjPropChanged` delivers the notice
  synchronously to the plugin's own property-changed handler, which then
  handles the changed tilesets as resources. The model returns the notice
  as output. `NoticeReentryIsSilent` proves that the re-entry recompiles
  nothing and sends nothing, because a tileset is not a pixmap.

## Model

| member | source | states |
|---|---|---|
| PaletteLifecycle.SetTileDrawingSource | DualityEditorPlugins/Tilemaps/EditorPlugin.cs:50-54 | assigning null stores the shared empty drawing source, a non-null value is stored as given, and no other field changes |
| PaletteLifecycle.RequestTilePalette | DualityEditorPlugins/Tilemaps/EditorPlugin.cs:156-176 | always ends with a live palette; an existing live palette is reused untouched; a null or disposed one is replaced by a palette with a new handle that has loaded the cached settings if any; Show is called iff not loading; claims, cache and flags are unchanged |
| PaletteLifecycle.Increment | DualityEditorPlugins/Tilemaps/EditorPlugin.cs:135 | the unchecked `++` on an `int`: the result is one more modulo 2^32, and exactly one more below `Int32Max` |
| PaletteLifecycle.Decrement | DualityEditorPlugins/Tilemaps/EditorPlugin.cs:153 | the unchecked `--` on an `int`: the result is one less modulo 2^32, and exactly one less above `Int32Min` |
| PaletteLifecycle.PushTilePalette | DualityEditorPlugins/Tilemaps/EditorPlugin.cs:133-141 | the counter is incremented with 32-bit wrap. When it reaches exactly one, the outcome is exactly that of a request: a live palette is reused, otherwise a palette with the next handle and the cached settings is created, and it is shown iff not loading. At any other value nothing else changes and nothing is shown. Returns the current palette |
| PaletteLifecycle.TilePaletteFormClosed | DualityEditorPlugins/Tilemaps/EditorPlugin.cs:178-190 | the cache becomes the palette's snapshot, the palette reference becomes null, and the counter is decremented (with 32-bit wrap) iff the reason is UserClosing |
| PaletteLifecycle.PopTilePalette | DualityEditorPlugins/Tilemaps/EditorPlugin.cs:146-154 | at zero claims nothing changes; at one claim with a palette the outcome is exactly that of Close (the close handler, silent disposal, or nothing when the close is cancelled) and the counter ends at 0 only for a UserClosing close; otherwise the counter is decremented with 32-bit wrap and nothing else changes |
| PaletteLifecycle.PaletteDisposedByHost | DualityEditorPlugins/Tilemaps/EditorPlugin.cs:159 | the host disposing the palette leaves the field referring to the same palette, with the same handle and settings but dead, which the creation check treats as absent; with no palette nothing changes |
| PaletteLifecycle.DeserializeDockContent | DualityEditorPlugins/Tilemaps/EditorPlugin.cs:62-72 | loading is false afterwards and nothing is shown. For the palette type the state is exactly that of a request made while loading: a live palette is reused, otherwise one with the next handle and the cached settings is created; it is the returned content, and no claim is taken. Other types go to the base class with the state untouched |
| PaletteLifecycle.SaveUserData | DualityEditorPlugins/Tilemaps/EditorPlugin.cs:90-104 | a present palette is snapshot into the cache first; the node keeps its elements and gains exactly one, a copy of the cache, iff the cache is non-null and non-empty |
| PaletteLifecycle.LoadUserData | DualityEditorPlugins/Tilemaps/EditorPlugin.cs:105-127 | the cache becomes the first element with the palette tag and an id in [0,1) (missing id reads as 0), or stays as it was if none qualifies; a present palette then loads the cache; loading is false on exit |
| UserData.FirstPaletteSettings | DualityEditorPlugins/Tilemaps/EditorPlugin.cs:110-118 | finds the position of the first qualifying settings element, and every element before it fails the tag or range test; none is found iff no element qualifies |
| PaletteProperties.RunKeepsClaimsCoverPalette | DualityEditorPlugins/Tilemaps/EditorPlugin.cs:133-190 | along any trace that does not restore a palette from the layout and is too short to overflow the counter, the counter stays non-negative and a live palette is always claimed |
| PaletteProperties.RunKeepsClaimsMatchPalette | DualityEditorPlugins/Tilemaps/EditorPlugin.cs:133-176 | along traces of pushes, releases whose Close reports UserClosing, and user-data and drawing-source events, too short to overflow the counter, the palette is live exactly while the counter is positive |
| PaletteProperties.StepKeepsClaimsCoverPalette | DualityEditorPlugins/Tilemaps/EditorPlugin.cs:133-190 | below `Int32Max`, each single event other than a palette layout restore keeps the claims-cover-palette invariant and raises the counter by at most one |
| PaletteProperties.StepKeepsClaimsMatchPalette | DualityEditorPlugins/Tilemaps/EditorPlugin.cs:133-176 | below `Int32Max`, each push, release whose Close reports `UserClosing`, user-data or drawing-source event keeps the claims-match-palette invariant and raises the counter by at most one |
| PaletteProperties.InitialStateIsConsistent | DualityEditorPlugins/Tilemaps/EditorPlugin.cs:35-39 | the freshly constructed plugin satisfies both invariants |
| PaletteProperties.StepKeepsHandlesBelowNext | DualityEditorPlugins/Tilemaps/EditorPlugin.cs:159-161 | every event keeps the palette's handle below the next handle to allocate, and never lowers the next handle |
| PaletteProperties.RunKeepsHandlesBelowNext | DualityEditorPlugins/Tilemaps/EditorPlugin.cs:159-161 | along any trace, the palette's handle stays below the next handle to allocate |
| PaletteProperties.ClaimCounterWraps | DualityEditorPlugins/Tilemaps/EditorPlugin.cs:135-153 | a claim at `Int32Max` wraps the counter to `Int32Min` and opens no palette; a release at `Int32Min` wraps it to `Int32Max` |
| PaletteProperties.RequestIgnoresLoadingFlag | DualityEditorPlugins/Tilemaps/EditorPlugin.cs:156-176 | the loading flag decides only whether the palette is shown: the palette and the resulting state are otherwise the same |
| PaletteProperties.DeserializeIsUnshownRequest | DualityEditorPlugins/Tilemaps/EditorPlugin.cs:62-72 | restoring the palette from the layout produces exactly the state and palette a request would, with loading cleared and nothing shown |
| PaletteProperties.RestoredPaletteIsReusedByFirstClaim | DualityEditorPlugins/Tilemaps/EditorPlugin.cs:62-72 | from zero claims, the first claim after a layout restore adopts the restored palette, takes one claim and shows it |
| PaletteProperties.PopUndoesPush | DualityEditorPlugins/Tilemaps/EditorPlugin.cs:133-154 | with a claim already held, a push followed by a pop restores the exact prior state |
| PaletteProperties.FirstClaimReleaseClosesPalette | DualityEditorPlugins/Tilemaps/EditorPlugin.cs:133-154 | the first claim opens a palette, and releasing it closes that palette, leaves no claims and caches the palette's settings |
| PaletteProperties.UnbalancedPopIsIgnored | DualityEditorPlugins/Tilemaps/EditorPlugin.cs:148-149 | a release with no claims changes nothing |
| PaletteProperties.TwoClaimsShareOnePalette | DualityEditorPlugins/Tilemaps/EditorPlugin.cs:133-154 | request, request, release, release: one palette is created, it survives the first release and is closed by the second |
| PaletteProperties.UserCloseDropsTheClaim | DualityEditorPlugins/Tilemaps/EditorPlugin.cs:186-189 | a claim followed by the user closing the palette leaves zero claims, and a later release is a no-op |
| PaletteProperties.UserCloseWithTwoClaimsLosesPalette | DualityEditorPlugins/Tilemaps/EditorPlugin.cs:136-138 | after two claims and a user close, a third claim leaves two claims and no palette: the counter and the palette disagree |
| PaletteProperties.RestoredPaletteUserCloseGoesNegative | DualityEditorPlugins/Tilemaps/EditorPlugin.cs:66-67 | a palette restored from the layout and closed by the user drives the counter to -1, and the next claim opens no palette |
| PaletteProperties.ReopenRestoresSettings | DualityEditorPlugins/Tilemaps/EditorPlugin.cs:180-182 | in a state whose handles are below the next one, a palette closed for any reason and requested again comes back as a different palette with the same settings |
| PaletteProperties.SaveLoadRoundTrip | DualityEditorPlugins/Tilemaps/EditorPlugin.cs:90-127 | saving with a palette holding settings and loading into a fresh plugin caches the same settings under the palette tag with index 0, and the next palette gets them back |
| PaletteProperties.HostDisposalKeepsSettingsThroughSave | DualityEditorPlugins/Tilemaps/EditorPlugin.cs:93-96 | after a host disposal, a save still snapshots the dead palette's settings into the cache, and the next request creates a new palette with those settings |
| PaletteProperties.EmptySettingsAreNotSaved | DualityEditorPlugins/Tilemaps/EditorPlugin.cs:100-103 | a palette with empty settings adds nothing to the saved user data |
| PaletteProperties.DrawingSourceLastWriteWins | DualityEditorPlugins/Tilemaps/EditorPlugin.cs:53 | of two assignments to the drawing source only the second one counts, null included |
| PaletteProperties.PaletteEventsKeepDrawingSource | DualityEditorPlugins/Tilemaps/EditorPlugin.cs:39 | no palette or user-data event changes the drawing source |
| TilesetInvalidation.SelectedIndices | DualityEditorPlugins/Tilemaps/EditorPlugin.cs:221-239 | the positions picked are strictly increasing, and they are exactly the tilesets that are available, compiled and have a render input drawing from the pixmap |
| TilesetInvalidation.ChangedHandlesExtend | DualityEditorPlugins/Tilemaps/EditorPlugin.cs:244-245 | scanning one more tileset appends its handle to the changed list exactly when it needs recompiling |
| TilesetInvalidation.NoticeFor | DualityEditorPlugins/Tilemaps/EditorPlugin.cs:250-251 | a notification is sent iff the changed list is non-empty, naming exactly that list and not flagging it unsaved |
| TilesetInvalidation.Modified | DualityEditorPlugins/Tilemaps/EditorPlugin.cs:213-252 | a non-pixmap changes nothing and notifies nothing; for a pixmap, each affected tileset is compiled exactly once more and every other one is untouched, the changed list is the affected ones in order, and the notification follows NoticeFor |
| TilesetInvalidation.FindUsesPixmap | DualityEditorPlugins/Tilemaps/EditorPlugin.cs:230-238 | the render-input scan with early exit answers true iff some input draws from the pixmap |
| TilesetInvalidation.OnResourceModified | DualityEditorPlugins/Tilemaps/EditorPlugin.cs:213-252 | the handler's loops compute exactly the reference outcome |
| TilesetInvalidation.FileEventManagerResourceModified | DualityEditorPlugins/Tilemaps/EditorPlugin.cs:201-204 | a file event reaches the handler iff it is about a resource; otherwise nothing changes |
| TilesetInvalidation.ObjectPropertyChanged | DualityEditorPlugins/Tilemaps/EditorPlugin.cs:205-212 | each changed resource is handled in order, with the tilesets threaded through and the notifications collected in order |
| TilesetInvalidation.ModifiedAllStep | DualityEditorPlugins/Tilemaps/EditorPlugin.cs:209-210 | handling the next resource of a batch moves the split between notifications sent and resources left by one resource |
| TilesetInvalidation.AsResources | DualityEditorPlugins/Tilemaps/EditorPlugin.cs:251 | the changed tilesets, handed back as resources, are the same objects in the same order, none of them a pixmap |
| InvalidationProperties.ChangedIsExactlyAffected | DualityEditorPlugins/Tilemaps/EditorPlugin.cs:218-246 | for a pixmap, a handle is in the changed list iff some loaded tileset with that handle is available, compiled and draws from the pixmap |
| InvalidationProperties.OnlyCompiledUsersAreRecompiled | DualityEditorPlugins/Tilemaps/EditorPlugin.cs:226-242 | with A compiled on X, B compiled on Y and C uncompiled on X, modifying X recompiles A alone and reports exactly [A] |
| InvalidationProperties.BatchRecompilesOncePerTrigger | DualityEditorPlugins/Tilemaps/EditorPlugin.cs:205-246 | after a batch each tileset has been compiled once per modified pixmap in the batch that it needs recompiling for, and is otherwise unchanged |
| InvalidationProperties.BatchNoticesAreBounded | DualityEditorPlugins/Tilemaps/EditorPlugin.cs:205-251 | a batch sends at most one notification per resource; each names at least one tileset and none flags unsaved |
| InvalidationProperties.BatchWithoutPixmapsIsSilent | DualityEditorPlugins/Tilemaps/EditorPlugin.cs:218 | a batch without pixmaps recompiles nothing and notifies nothing |
| InvalidationProperties.NoticeReentryIsSilent | DualityEditorPlugins/Tilemaps/EditorPlugin.cs:205-212 | feeding a notification's tilesets back through the property-changed handler recompiles nothing and notifies nothing |
| InvalidationProperties.BatchSplits | DualityEditorPlugins/Tilemaps/EditorPlugin.cs:209-210 | handling a batch equals handling its two halves one after the other |
| InvalidationProperties.TriggersOfBumped | DualityEditorPlugins/Tilemaps/EditorPlugin.cs:226-227 | recompiling a tileset does not change which later pixmap modifications affect it |

## Left out

- PaletteProperties.RunKeepsClaimsCoverPalette: proved only for traces too short to push the counter past `Int32Max`. Past that the counter wraps (`ClaimCounterWraps`) and the invariant fails.
- PaletteProperties.RunKeepsClaimsMatchPalette: proved only for traces too short to push the counter past `Int32Max`, for the same reason.
- `ResourceHackerResCache`: a single static field caching a generated bitmap, with no logic to model.
- `menuItemTilePalette_Click`: when the palette reference is null the menu takes a claim, which is a plain `PushTilePalette` in the model, and the menu never releases it. The rest of the path, activating and focusing the pane, is window-system behaviour and is left out.
- `InitPlugin`: registers the menu item and subscribes the two event adapters. This is host plumbing.
- The `Id` property and the `Instance` singleton: they hold constants and references only.
- Docking (`Show`, `Pane.Activate`, `Focus`): reduced to the `shown` result flag.
- XML: elements are reduced to tag, optional integer `id` and an opaque body. The text parsing behind `GetAttributeValue` is not modelled. An `id` is present with an integer value or missing.
- The palette's own user-data format: modelled as storing and returning the element body. A newly constructed palette starts from an empty body (`FreshPaletteData`). Its real initial settings are not part of this model.
- The palette's `LoadUserData` with a null element: in `LoadUserData` the plugin can pass a null cache to a live palette. The model leaves the palette unchanged there, because the palette's handling of null is not part of this model.
- `Tileset.Compile`, `ContentProvider.GetLoadedContent` and `ContentRef` equality: these are host calls. They are modelled as a compile counter, a given sequence of loaded tilesets, and identity of ids. Whether a resource is a pixmap is an input flag.
