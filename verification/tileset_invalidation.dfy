/**
  Tileset invalidation: when a pixmap is modified, every loaded tileset that
  is compiled and renders from that pixmap is recompiled, and one change
  notification names all of them. `Modified` is the reference definition;
  the methods follow the handler's loops and are proved to agree with it.
*/
module TilesetInvalidation {
  import opened Wrappers

  /** Identity of a resource; two references are equal when they name the same resource. */
  type ResourceId = nat

  /** Identity of a tileset object. */
  type TilesetHandle = nat

  /** A reference to a modified resource and whether it holds a pixmap. */
  datatype ResourceRef = ResourceRef(id: ResourceId, isPixmap: bool)

  /** One entry of a tileset's render configuration: the pixmap it draws from. */
  datatype RenderInput = RenderInput(sourceData: ResourceId)

  /** A tileset; `compilations` counts how often it has been compiled. */
  datatype Tileset = Tileset(compiled: bool, renderConfig: seq<RenderInput>, compilations: nat)

  /** A loaded tileset reference; the resource behind it may be unavailable. */
  datatype LoadedTileset = LoadedTileset(handle: TilesetHandle, res: Option<Tileset>)

  /** The change broadcast: the objects changed and whether they must be flagged unsaved. */
  datatype Notice = Notice(objects: seq<TilesetHandle>, persistenceCritical: bool)

  /** The loaded tilesets afterwards, the tilesets recompiled in order, and the broadcast sent. */
  datatype Outcome = Outcome(tilesets: seq<LoadedTileset>, changed: seq<TilesetHandle>, notice: Option<Notice>)

  predicate UsesPixmap(t: Tileset, pix: ResourceId) {
    exists i :: 0 <= i < |t.renderConfig| && t.renderConfig[i].sourceData == pix
  }

  /** The tileset is available, already compiled, and draws from `pix`. */
  predicate NeedsRecompile(ts: LoadedTileset, pix: ResourceId) {
    ts.res.Some? && ts.res.value.compiled && UsesPixmap(ts.res.value, pix)
  }

  /**
    A tileset compiled `n` more times, otherwise unchanged; an unavailable one
    stays as it is. Recompiling rebuilds derived data only, so the model just
    counts it.
  */
  function Bumped(ts: LoadedTileset, n: nat): LoadedTileset {
    match ts.res
    case Some(t) => ts.(res := Some(t.(compilations := t.compilations + n)))
    case None => ts
  }

  /** `after` is the available tileset `before` compiled exactly once more and otherwise the same. */
  predicate RecompiledOnce(before: LoadedTileset, after: LoadedTileset) {
    before.res.Some? && after == Bumped(before, 1)
  }

  function Refreshed(ts: LoadedTileset, pix: ResourceId): LoadedTileset {
    if NeedsRecompile(ts, pix) then Bumped(ts, 1) else ts
  }

  /** The positions of the tilesets that need recompiling, in increasing order. */
  function SelectedIndices(loaded: seq<LoadedTileset>, pix: ResourceId): (r: seq<nat>)
    ensures forall k :: 0 <= k < |r| ==> r[k] < |loaded| && NeedsRecompile(loaded[r[k]], pix)
    ensures forall k, l :: 0 <= k < l < |r| ==> r[k] < r[l]
    ensures forall i :: 0 <= i < |loaded| && NeedsRecompile(loaded[i], pix) ==> i in r
    decreases |loaded|
  {
    if |loaded| == 0 then []
    else
      var n := |loaded| - 1;
      SelectedIndices(loaded[..n], pix) + (if NeedsRecompile(loaded[n], pix) then [n] else [])
  }

  function HandlesAt(loaded: seq<LoadedTileset>, ix: seq<nat>): (r: seq<TilesetHandle>)
    requires forall k :: 0 <= k < |ix| ==> ix[k] < |loaded|
    ensures |r| == |ix|
  {
    seq(|ix|, k requires 0 <= k < |ix| => loaded[ix[k]].handle)
  }

  /** The handles of the tilesets that need recompiling, in enumeration order. */
  function ChangedHandles(loaded: seq<LoadedTileset>, pix: ResourceId): seq<TilesetHandle> {
    HandlesAt(loaded, SelectedIndices(loaded, pix))
  }

  /** Scanning one more tileset appends its handle to the changed list exactly when it needs recompiling. */
  lemma ChangedHandlesExtend(loaded: seq<LoadedTileset>, pix: ResourceId)
    requires |loaded| > 0
    ensures var n := |loaded| - 1;
      ChangedHandles(loaded, pix)
        == ChangedHandles(loaded[..n], pix) + (if NeedsRecompile(loaded[n], pix) then [loaded[n].handle] else [])
  {
    var n := |loaded| - 1;
    var prefix := loaded[..n];
    var ix := SelectedIndices(prefix, pix);
    var tail := if NeedsRecompile(loaded[n], pix) then [n] else [];
    assert SelectedIndices(loaded, pix) == ix + tail;
    assert HandlesAt(prefix, ix) == HandlesAt(loaded, ix);
    assert HandlesAt(loaded, ix + tail)
      == HandlesAt(loaded, ix) + (if NeedsRecompile(loaded[n], pix) then [loaded[n].handle] else []);
  }

  /** The single broadcast for a scan: sent, not flagging anything unsaved, iff something changed. */
  function NoticeFor(changed: seq<TilesetHandle>): (r: Option<Notice>)
    ensures r.Some? <==> |changed| > 0
    ensures r.Some? ==> r.value.objects == changed && !r.value.persistenceCritical
  {
    if |changed| > 0 then Some(Notice(changed, false)) else None
  }

  /** What handling one modified resource does, as a reference definition. */
  function Modified(loaded: seq<LoadedTileset>, res: ResourceRef): (r: Outcome)
    ensures !res.isPixmap ==> r == Outcome(loaded, [], None)
    ensures |r.tilesets| == |loaded|
    ensures forall i :: 0 <= i < |loaded| ==>
      if res.isPixmap && NeedsRecompile(loaded[i], res.id) then RecompiledOnce(loaded[i], r.tilesets[i])
      else r.tilesets[i] == loaded[i]
    ensures res.isPixmap ==> r.changed == HandlesAt(loaded, SelectedIndices(loaded, res.id))
    ensures r.notice == NoticeFor(r.changed)
  {
    if !res.isPixmap then Outcome(loaded, [], None)
    else
      var changed := ChangedHandles(loaded, res.id);
      Outcome(seq(|loaded|, i requires 0 <= i < |loaded| => Refreshed(loaded[i], res.id)),
              changed, NoticeFor(changed))
  }

  /** The render-input scan: does any input draw from `pix`? Stops at the first match. */
  method FindUsesPixmap(t: Tileset, pix: ResourceId) returns (uses: bool)
    ensures uses <==> UsesPixmap(t, pix)
  {
    uses := false;
    var i := 0;
    while i < |t.renderConfig|
      invariant 0 <= i <= |t.renderConfig|
      invariant forall j :: 0 <= j < i ==> t.renderConfig[j].sourceData != pix
    {
      if t.renderConfig[i].sourceData == pix {
        uses := true;
        break;
      }
      i := i + 1;
    }
  }

  /** The modified-resource handler, loop for loop. */
  method OnResourceModified(loaded: seq<LoadedTileset>, res: ResourceRef) returns (out: Outcome)
    ensures out == Modified(loaded, res)
  {
    var tilesets := loaded;
    var changed: seq<TilesetHandle> := [];
    if res.isPixmap {
      var i := 0;
      while i < |loaded|
        invariant 0 <= i <= |loaded| && |tilesets| == |loaded|
        invariant forall j :: 0 <= j < i ==> tilesets[j] == Refreshed(loaded[j], res.id)
        invariant forall j :: i <= j < |loaded| ==> tilesets[j] == loaded[j]
        invariant changed == ChangedHandles(loaded[..i], res.id)
      {
        assert loaded[..i + 1][..i] == loaded[..i];
        ChangedHandlesExtend(loaded[..i + 1], res.id);
        var ts := loaded[i];
        var uses := false;
        if ts.res.Some? && ts.res.value.compiled {
          uses := FindUsesPixmap(ts.res.value, res.id);
        }
        assert uses == NeedsRecompile(ts, res.id);
        if uses {
          tilesets := tilesets[i := Bumped(ts, 1)];
          changed := changed + [ts.handle];
        }
        i := i + 1;
      }
      assert loaded[..|loaded|] == loaded;
    }
    out := Outcome(tilesets, changed, if |changed| > 0 then Some(Notice(changed, false)) else None);
  }

  /** The file-event adapter: only events about resources reach the handler. */
  method FileEventManagerResourceModified(loaded: seq<LoadedTileset>, isResource: bool, content: ResourceRef)
    returns (out: Outcome)
    ensures isResource ==> out == Modified(loaded, content)
    ensures !isResource ==> out == Outcome(loaded, [], None)
  {
    if isResource {
      out := OnResourceModified(loaded, content);
    } else {
      out := Outcome(loaded, [], None);
    }
  }

  /** The changed tilesets handed back to the handler as resources; a tileset is not a pixmap. */
  function AsResources(objects: seq<TilesetHandle>): (r: seq<ResourceRef>)
    ensures |r| == |objects|
    ensures forall k :: 0 <= k < |r| ==> r[k] == ResourceRef(objects[k], false)
  {
    seq(|objects|, k requires 0 <= k < |objects| => ResourceRef(objects[k], false))
  }

  /** The loaded tilesets after a batch, and the broadcasts sent, in order. */
  datatype Batch = Batch(tilesets: seq<LoadedTileset>, notices: seq<Notice>)

  /** Handling each resource of a batch in turn, as a reference definition. */
  function ModifiedAll(loaded: seq<LoadedTileset>, resources: seq<ResourceRef>): Batch
    decreases |resources|
  {
    if |resources| == 0 then Batch(loaded, [])
    else
      var o := Modified(loaded, resources[0]);
      var rest := ModifiedAll(o.tilesets, resources[1..]);
      Batch(rest.tilesets, (if o.notice.Some? then [o.notice.value] else []) + rest.notices)
  }

  /**
    One step of a batch: if handling `resources` from `loaded` amounts to
    `notices` so far followed by handling the rest from `tilesets`, then
    handling resource `i` moves that split point one resource on.
  */
  lemma ModifiedAllStep(loaded: seq<LoadedTileset>, resources: seq<ResourceRef>,
                        tilesets: seq<LoadedTileset>, notices: seq<Notice>, i: nat, o: Outcome)
    requires i < |resources| && o == Modified(tilesets, resources[i])
    requires ModifiedAll(loaded, resources)
      == Batch(ModifiedAll(tilesets, resources[i..]).tilesets, notices + ModifiedAll(tilesets, resources[i..]).notices)
    ensures var notices' := notices + (if o.notice.Some? then [o.notice.value] else []);
      ModifiedAll(loaded, resources)
        == Batch(ModifiedAll(o.tilesets, resources[i + 1..]).tilesets,
                 notices' + ModifiedAll(o.tilesets, resources[i + 1..]).notices)
  {
    assert resources[i..][0] == resources[i] && resources[i..][1..] == resources[i + 1..];
  }

  /** The property-changed adapter: every resource among the changed objects, in order. */
  method ObjectPropertyChanged(loaded: seq<LoadedTileset>, resources: seq<ResourceRef>)
    returns (b: Batch)
    ensures b == ModifiedAll(loaded, resources)
  {
    var tilesets := loaded;
    var notices: seq<Notice> := [];
    var i := 0;
    while i < |resources|
      invariant 0 <= i <= |resources|
      invariant ModifiedAll(loaded, resources)
        == Batch(ModifiedAll(tilesets, resources[i..]).tilesets,
                 notices + ModifiedAll(tilesets, resources[i..]).notices)
    {
      var o := OnResourceModified(tilesets, resources[i]);
      ModifiedAllStep(loaded, resources, tilesets, notices, i, o);
      tilesets := o.tilesets;
      if o.notice.Some? {
        notices := notices + [o.notice.value];
      }
      i := i + 1;
    }
    assert resources[i..] == [];
    b := Batch(tilesets, notices);
  }
}
