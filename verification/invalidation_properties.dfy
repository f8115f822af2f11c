/**
  Properties of tileset invalidation: the changed list names exactly the
  affected tilesets, and a batch of modified resources recompiles each
  tileset once per modified pixmap it draws from.
*/
module InvalidationProperties {
  import opened Wrappers
  import opened TilesetInvalidation

  /** How many of `resources` are pixmaps that `ts` needs recompiling for. */
  function Triggers(ts: LoadedTileset, resources: seq<ResourceRef>): nat
    decreases |resources|
  {
    if |resources| == 0 then 0
    else
      (if resources[0].isPixmap && NeedsRecompile(ts, resources[0].id) then 1 else 0)
      + Triggers(ts, resources[1..])
  }

  /** For a pixmap, a tileset is in the changed list iff some loaded entry with its handle needs recompiling. */
  lemma ChangedIsExactlyAffected(loaded: seq<LoadedTileset>, res: ResourceRef, h: TilesetHandle)
    requires res.isPixmap
    ensures h in Modified(loaded, res).changed
      <==> exists i :: 0 <= i < |loaded| && loaded[i].handle == h && NeedsRecompile(loaded[i], res.id)
  {
    var ix := SelectedIndices(loaded, res.id);
    var changed := Modified(loaded, res).changed;
    assert changed == HandlesAt(loaded, ix);
    if h in changed {
      var k :| 0 <= k < |changed| && changed[k] == h;
      assert loaded[ix[k]].handle == h;
    }
    if exists i :: 0 <= i < |loaded| && loaded[i].handle == h && NeedsRecompile(loaded[i], res.id) {
      var i :| 0 <= i < |loaded| && loaded[i].handle == h && NeedsRecompile(loaded[i], res.id);
      assert i in ix;
      var k :| 0 <= k < |ix| && ix[k] == i;
      assert changed[k] == h;
    }
  }

  /**
    Tilesets A (compiled, draws from X), B (compiled, draws from Y) and C (not
    compiled, draws from X): modifying pixmap X recompiles A only and reports {A}.
  */
  lemma OnlyCompiledUsersAreRecompiled()
    ensures
      var x, y := 10, 20;
      var a := LoadedTileset(1, Some(Tileset(true, [RenderInput(x)], 1)));
      var b := LoadedTileset(2, Some(Tileset(true, [RenderInput(y)], 1)));
      var c := LoadedTileset(3, Some(Tileset(false, [RenderInput(x)], 0)));
      var o := Modified([a, b, c], ResourceRef(x, true));
      && o.changed == [1]
      && o.notice == Some(Notice([1], false))
      && o.tilesets[0].res.value.compilations == 2
      && o.tilesets[1] == b && o.tilesets[2] == c
  {
    var x, y := 10, 20;
    var a := LoadedTileset(1, Some(Tileset(true, [RenderInput(x)], 1)));
    var b := LoadedTileset(2, Some(Tileset(true, [RenderInput(y)], 1)));
    var c := LoadedTileset(3, Some(Tileset(false, [RenderInput(x)], 0)));
    var loaded := [a, b, c];
    assert NeedsRecompile(a, x) by { assert a.res.value.renderConfig[0].sourceData == x; }
    assert !NeedsRecompile(b, x);
    assert [a][..0] == [] && [a, b][..1] == [a] && loaded[..2] == [a, b];
    assert SelectedIndices([a], x) == [0];
    assert SelectedIndices([a, b], x) == [0];
    assert SelectedIndices(loaded, x) == [0];
  }

  lemma BumpedKeepsNeeds(ts: LoadedTileset, n: nat, pix: ResourceId)
    ensures NeedsRecompile(Bumped(ts, n), pix) == NeedsRecompile(ts, pix)
  {
  }

  lemma {:induction false} TriggersOfBumped(ts: LoadedTileset, n: nat, resources: seq<ResourceRef>)
    ensures Triggers(Bumped(ts, n), resources) == Triggers(ts, resources)
    decreases |resources|
  {
    if |resources| > 0 {
      BumpedKeepsNeeds(ts, n, resources[0].id);
      TriggersOfBumped(ts, n, resources[1..]);
    }
  }

  /** One modified resource bumps each tileset by one exactly when it needs recompiling. */
  lemma ModifiedIsBump(loaded: seq<LoadedTileset>, res: ResourceRef, i: nat)
    requires i < |loaded|
    ensures Modified(loaded, res).tilesets[i]
      == Bumped(loaded[i], if res.isPixmap && NeedsRecompile(loaded[i], res.id) then 1 else 0)
  {
  }

  /**
    After a batch every tileset is the one loaded before, compiled once more
    for each modified pixmap of the batch it draws from, and otherwise unchanged.
  */
  lemma {:induction false} BatchRecompilesOncePerTrigger(loaded: seq<LoadedTileset>, resources: seq<ResourceRef>)
    ensures |ModifiedAll(loaded, resources).tilesets| == |loaded|
    ensures forall i :: 0 <= i < |loaded| ==>
      ModifiedAll(loaded, resources).tilesets[i] == Bumped(loaded[i], Triggers(loaded[i], resources))
    decreases |resources|
  {
    if |resources| > 0 {
      var r := resources[0];
      var rest := resources[1..];
      var o := Modified(loaded, r);
      BatchRecompilesOncePerTrigger(o.tilesets, rest);
      forall i | 0 <= i < |loaded|
        ensures ModifiedAll(loaded, resources).tilesets[i] == Bumped(loaded[i], Triggers(loaded[i], resources))
      {
        var first: nat := if r.isPixmap && NeedsRecompile(loaded[i], r.id) then 1 else 0;
        ModifiedIsBump(loaded, r, i);
        TriggersOfBumped(loaded[i], first, rest);
        assert ModifiedAll(loaded, resources).tilesets[i]
          == Bumped(Bumped(loaded[i], first), Triggers(loaded[i], rest));
      }
    } else {
      forall i | 0 <= i < |loaded|
        ensures ModifiedAll(loaded, resources).tilesets[i] == Bumped(loaded[i], Triggers(loaded[i], resources))
      {
        assert Bumped(loaded[i], 0) == loaded[i];
      }
    }
  }

  /** A batch sends at most one broadcast per resource, each naming something and none flagging unsaved. */
  lemma {:induction false} BatchNoticesAreBounded(loaded: seq<LoadedTileset>, resources: seq<ResourceRef>)
    ensures |ModifiedAll(loaded, resources).notices| <= |resources|
    ensures forall k :: 0 <= k < |ModifiedAll(loaded, resources).notices| ==>
      |ModifiedAll(loaded, resources).notices[k].objects| > 0
      && !ModifiedAll(loaded, resources).notices[k].persistenceCritical
    decreases |resources|
  {
    if |resources| > 0 {
      BatchNoticesAreBounded(Modified(loaded, resources[0]).tilesets, resources[1..]);
    }
  }

  /** A batch without pixmaps recompiles nothing and broadcasts nothing. */
  lemma {:induction false} BatchWithoutPixmapsIsSilent(loaded: seq<LoadedTileset>, resources: seq<ResourceRef>)
    requires forall k :: 0 <= k < |resources| ==> !resources[k].isPixmap
    ensures ModifiedAll(loaded, resources) == Batch(loaded, [])
    decreases |resources|
  {
    if |resources| > 0 {
      assert Modified(loaded, resources[0]) == Outcome(loaded, [], None);
      BatchWithoutPixmapsIsSilent(loaded, resources[1..]);
    }
  }

  /**
    The broadcast is delivered synchronously to the property-changed handler,
    which hands the changed tilesets back as resources. None of them is a
    pixmap, so the re-entry recompiles nothing and broadcasts nothing.
  */
  lemma NoticeReentryIsSilent(loaded: seq<LoadedTileset>, res: ResourceRef)
    requires Modified(loaded, res).notice.Some?
    ensures var o := Modified(loaded, res);
      ModifiedAll(o.tilesets, AsResources(o.notice.value.objects)) == Batch(o.tilesets, [])
  {
    var o := Modified(loaded, res);
    BatchWithoutPixmapsIsSilent(o.tilesets, AsResources(o.notice.value.objects));
  }

  /** Handling a batch in two parts is handling the parts one after the other. */
  lemma {:induction false} BatchSplits(loaded: seq<LoadedTileset>, first: seq<ResourceRef>, second: seq<ResourceRef>)
    ensures var whole := ModifiedAll(loaded, first + second);
      var one := ModifiedAll(loaded, first);
      var two := ModifiedAll(one.tilesets, second);
      whole == Batch(two.tilesets, one.notices + two.notices)
    decreases |first|
  {
    if |first| > 0 {
      assert (first + second)[0] == first[0] && (first + second)[1..] == first[1..] + second;
      BatchSplits(Modified(loaded, first[0]).tilesets, first[1..], second);
    } else {
      assert first + second == second;
    }
  }
}
