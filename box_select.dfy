/**
 * The ROI box-selection interaction of the map viewer (`ome.ol3.interaction.BoxSelect`):
 * a drag box that, when the drag starts, clears the current selection and,
 * when it ends, selects every visible, non-removed region feature whose
 * geometry intersects the box. With clustering on, a cluster is replaced by
 * its members when the box meets the cluster's bounding box.
 *
 * Features are values held in the regions source's feature list and are told
 * apart by `id`; the selection manager keeps the set of selected ids. The test
 * `geometry.intersectsExtent(extent)` belongs to OpenLayers and is a parameter
 * of the box-end handler, as is the extent of the drag box itself.
 */
module BoxSelection {
  import opened Wrappers

  // ---------------------------------------------------------------------------
  // geometry
  // ---------------------------------------------------------------------------

  /** An `ol.Extent` `[minX, minY, maxX, maxY]` in world coordinates. */
  datatype Extent = Extent(minX: int, minY: int, maxX: int, maxY: int)

  /** `ol.extent.intersects`: the two closed rectangles share at least one point. */
  predicate ExtentsIntersect(a: Extent, b: Extent) {
    a.minX <= b.maxX && a.maxX >= b.minX && a.minY <= b.maxY && a.maxY >= b.minY
  }

  /** A handle on a feature's `ol.geom.Geometry`. */
  datatype Geometry = Geometry(handle: nat)

  // ---------------------------------------------------------------------------
  // features
  // ---------------------------------------------------------------------------

  /**
   * A numeric `state` property: `ome.ol3.REGIONS_STATE.REMOVED` or any other
   * number (the numbering itself is not part of this model).
   */
  datatype RegionsState = Removed | Other(code: int)

  /** A plain feature, or an `ome.ol3.feature.Cluster` with its bounding box and members (`features_`). */
  datatype Kind = Plain | Cluster(bbox: Extent, members: seq<Feature>)

  /**
   * A region feature. `visible` is None when `feature['visible']` is not a
   * boolean and `state` is None when `feature['state']` is not a number.
   */
  datatype Feature = Feature(
    id: nat,
    geometry: Option<Geometry>,
    visible: Option<bool>,
    state: Option<RegionsState>,
    selected: bool,
    kind: Kind)

  /**
   * The eligibility test of both box-end callbacks: the feature has a
   * geometry, its `visible` is not the boolean false and its `state` is not
   * the number REMOVED.
   */
  predicate Eligible(f: Feature) {
    f.geometry.Some? && f.visible != Some(false) && f.state != Some(Removed)
  }

  /** An eligible feature whose geometry intersects the box: it is passed to `toggleFeatureSelection(f, true)`. */
  predicate Hit(f: Feature, box: Extent, intersects: (Geometry, Extent) -> bool) {
    Eligible(f) && intersects(f.geometry.value, box)
  }

  // ---------------------------------------------------------------------------
  // what one box-end gesture does, as functions of the feature list
  // ---------------------------------------------------------------------------

  /** The ids of the hit features among `fs`. */
  function HitIds(fs: seq<Feature>, box: Extent, intersects: (Geometry, Extent) -> bool): set<nat>
    decreases |fs|
  {
    if |fs| == 0 then {}
    else
      var last := fs[|fs| - 1];
      HitIds(fs[..|fs| - 1], box, intersects) + (if Hit(last, box, intersects) then {last.id} else {})
  }

  /** The unclustered callback's writes: every feature that is not hit gets `selected = false`. */
  function Deselected(fs: seq<Feature>, box: Extent, intersects: (Geometry, Extent) -> bool): seq<Feature> {
    seq(|fs|, i requires 0 <= i < |fs| =>
      if Hit(fs[i], box, intersects) then fs[i] else fs[i].(selected := false))
  }

  /**
   * The clustered callback's `featureList`: when clustered-collection mode is
   * off, a cluster stands for its members if the box meets its bounding box
   * and for nothing otherwise; anything else stands for itself.
   */
  function Candidates(f: Feature, box: Extent, useClusteredCollection: bool): seq<Feature> {
    if !useClusteredCollection && f.kind.Cluster? then
      if ExtentsIntersect(box, f.kind.bbox) then f.kind.members else []
    else
      [f]
  }

  /** The ids the clustered callback selects over the feature list `fs`. */
  function ClusteredHitIds(fs: seq<Feature>, box: Extent, intersects: (Geometry, Extent) -> bool,
                           useClusteredCollection: bool): set<nat>
    decreases |fs|
  {
    if |fs| == 0 then {}
    else
      ClusteredHitIds(fs[..|fs| - 1], box, intersects, useClusteredCollection)
        + HitIds(Candidates(fs[|fs| - 1], box, useClusteredCollection), box, intersects)
  }

  /** The ids that one box-end gesture adds to the selection. */
  function BoxEndSelection(fs: seq<Feature>, box: Extent, intersects: (Geometry, Extent) -> bool,
                           useClustering: bool, useClusteredCollection: bool): set<nat>
  {
    if useClustering then ClusteredHitIds(fs, box, intersects, useClusteredCollection)
    else HitIds(fs, box, intersects)
  }

  /** The feature list after one box-end gesture: only the unclustered callback writes to it. */
  function BoxEndFeatures(fs: seq<Feature>, box: Extent, intersects: (Geometry, Extent) -> bool,
                          useClustering: bool): seq<Feature>
  {
    if useClustering then fs else Deselected(fs, box, intersects)
  }

  // ---------------------------------------------------------------------------
  // properties of a gesture
  // ---------------------------------------------------------------------------

  /** An id is selected by the unclustered callback exactly when some feature with that id is hit. */
  lemma {:induction false} HitIdsMembership(fs: seq<Feature>, box: Extent, intersects: (Geometry, Extent) -> bool, id: nat)
    ensures id in HitIds(fs, box, intersects)
        <==> exists i :: 0 <= i < |fs| && fs[i].id == id && Hit(fs[i], box, intersects)
    decreases |fs|
  {
    if |fs| > 0 {
      var init := fs[..|fs| - 1];
      HitIdsMembership(init, box, intersects, id);
      if id in HitIds(init, box, intersects) {
        var i :| 0 <= i < |init| && init[i].id == id && Hit(init[i], box, intersects);
        assert fs[i] == init[i];
      }
      if exists i :: 0 <= i < |fs| && fs[i].id == id && Hit(fs[i], box, intersects) {
        var i :| 0 <= i < |fs| && fs[i].id == id && Hit(fs[i], box, intersects);
        if i < |init| {
          assert init[i] == fs[i];
        }
      }
    }
  }

  /**
   * The unclustered gesture: every hit feature is selected and keeps its flags;
   * every other feature keeps everything but ends with `selected == false`.
   */
  lemma UnclusteredGesture(fs: seq<Feature>, box: Extent, intersects: (Geometry, Extent) -> bool, i: nat)
    requires i < |fs|
    ensures Hit(fs[i], box, intersects) ==> fs[i].id in BoxEndSelection(fs, box, intersects, false, false)
    ensures var after := BoxEndFeatures(fs, box, intersects, false);
      |after| == |fs| &&
      after[i] == (if Hit(fs[i], box, intersects) then fs[i] else fs[i].(selected := false))
    ensures !Hit(fs[i], box, intersects) ==> !BoxEndFeatures(fs, box, intersects, false)[i].selected
  {
    HitIdsMembership(fs, box, intersects, fs[i].id);
  }

  /**
   * Cluster expansion: with clustered-collection mode off, a cluster is never
   * its own candidate, and a cluster whose bounding box misses the box
   * contributes no selected id whatever its members' geometries; in
   * clustered-collection mode, or for a plain feature, the feature is the one
   * candidate.
   */
  lemma ClusterExpansion(f: Feature, box: Extent, intersects: (Geometry, Extent) -> bool, useClusteredCollection: bool)
    ensures !useClusteredCollection && f.kind.Cluster? ==> f !in Candidates(f, box, useClusteredCollection)
    ensures !useClusteredCollection && f.kind.Cluster? && !ExtentsIntersect(box, f.kind.bbox) ==>
      HitIds(Candidates(f, box, useClusteredCollection), box, intersects) == {}
    ensures useClusteredCollection || f.kind.Plain? ==> Candidates(f, box, useClusteredCollection) == [f]
  {
  }

  /** An id is selected from one feature's candidates exactly when some candidate with that id is hit. */
  lemma CandidateHitIds(f: Feature, box: Extent, intersects: (Geometry, Extent) -> bool,
                        useClusteredCollection: bool, id: nat)
    ensures id in HitIds(Candidates(f, box, useClusteredCollection), box, intersects)
        <==> exists c :: c in Candidates(f, box, useClusteredCollection) && c.id == id && Hit(c, box, intersects)
  {
    var cs := Candidates(f, box, useClusteredCollection);
    HitIdsMembership(cs, box, intersects, id);
    if exists c :: c in cs && c.id == id && Hit(c, box, intersects) {
      var c :| c in cs && c.id == id && Hit(c, box, intersects);
      var k :| 0 <= k < |cs| && cs[k] == c;
    }
  }

  /** An id is selected by the clustered callback exactly when some candidate of some feature with that id is hit. */
  lemma {:induction false} ClusteredHitIdsMembership(fs: seq<Feature>, box: Extent,
                                                     intersects: (Geometry, Extent) -> bool,
                                                     useClusteredCollection: bool, id: nat)
    ensures id in ClusteredHitIds(fs, box, intersects, useClusteredCollection)
        <==> exists i, c :: 0 <= i < |fs| && c in Candidates(fs[i], box, useClusteredCollection)
                            && c.id == id && Hit(c, box, intersects)
    decreases |fs|
  {
    if |fs| > 0 {
      var n := |fs| - 1;
      var init := fs[..n];
      ClusteredHitIdsMembership(init, box, intersects, useClusteredCollection, id);
      CandidateHitIds(fs[n], box, intersects, useClusteredCollection, id);
      if id in ClusteredHitIds(init, box, intersects, useClusteredCollection) {
        var i, c :| 0 <= i < |init| && c in Candidates(init[i], box, useClusteredCollection)
                    && c.id == id && Hit(c, box, intersects);
        assert fs[i] == init[i];
      }
      if exists i, c :: 0 <= i < |fs| && c in Candidates(fs[i], box, useClusteredCollection)
                        && c.id == id && Hit(c, box, intersects) {
        var i, c :| 0 <= i < |fs| && c in Candidates(fs[i], box, useClusteredCollection)
                    && c.id == id && Hit(c, box, intersects);
        if i < n {
          assert init[i] == fs[i];
        }
      }
    }
  }

  /** The deselection writes do not change which features are hit. */
  lemma {:induction false} HitIdsDeselected(fs: seq<Feature>, box: Extent, intersects: (Geometry, Extent) -> bool)
    ensures HitIds(Deselected(fs, box, intersects), box, intersects) == HitIds(fs, box, intersects)
    decreases |fs|
  {
    if |fs| > 0 {
      var init := fs[..|fs| - 1];
      assert Deselected(fs, box, intersects)[..|fs| - 1] == Deselected(init, box, intersects);
      HitIdsDeselected(init, box, intersects);
    }
  }

  /**
   * Repeating a gesture with the same box over the feature list it left
   * behind selects the same ids and writes nothing new.
   */
  lemma BoxEndIdempotent(fs: seq<Feature>, box: Extent, intersects: (Geometry, Extent) -> bool,
                         useClustering: bool, useClusteredCollection: bool)
    ensures var after := BoxEndFeatures(fs, box, intersects, useClustering);
      && BoxEndSelection(after, box, intersects, useClustering, useClusteredCollection)
         == BoxEndSelection(fs, box, intersects, useClustering, useClusteredCollection)
      && BoxEndFeatures(after, box, intersects, useClustering) == after
  {
    if !useClustering {
      HitIdsDeselected(fs, box, intersects);
    }
  }

  // ---------------------------------------------------------------------------
  // the collaborators: the regions source and its selection manager
  // ---------------------------------------------------------------------------

  /** The selection manager `regions.select_`; only the two calls the interaction makes are modelled. */
  class SelectionManager {
    var selection: set<nat>

    constructor ()
      ensures selection == {}
    {
      selection := {};
    }

    method ClearSelection()
      modifies this
      ensures selection == {}
    {
      selection := {};
    }

    method ToggleFeatureSelection(f: Feature, select: bool)
      modifies this
      ensures selection == if select then old(selection) + {f.id} else old(selection) - {f.id}
    {
      if select {
        selection := selection + {f.id};
      } else {
        selection := selection - {f.id};
      }
    }
  }

  /** The `ome.ol3.source.Regions` source: its features, its selection manager and its clustering flags. */
  class Regions {
    var features: seq<Feature>
    var select: SelectionManager?
    const useClustering: bool
    const useClusteredCollection: bool
    /** the `ol.Observable` revision counter that `changed()` increments */
    var revision: nat

    constructor (features: seq<Feature>, select: SelectionManager?, useClustering: bool, useClusteredCollection: bool)
      ensures this.features == features && this.select == select && revision == 0
      ensures this.useClustering == useClustering && this.useClusteredCollection == useClusteredCollection
    {
      this.features := features;
      this.select := select;
      this.useClustering := useClustering;
      this.useClusteredCollection := useClusteredCollection;
      revision := 0;
    }

    method Changed()
      modifies this
      ensures revision == old(revision) + 1
      ensures features == old(features) && select == old(select)
    {
      revision := revision + 1;
    }
  }

  // ---------------------------------------------------------------------------
  // the interaction
  // ---------------------------------------------------------------------------

  datatype BoxEvent = BoxStartEvent | BoxEndEvent

  /** The gesture trigger this interaction installs on its drag box. */
  datatype Condition = PlatformModifierKeyOnly

  /** The key `ol.events.listen` returns for one registered listener. */
  class ListenerKey {
    const event: BoxEvent

    constructor (event: BoxEvent)
      ensures this.event == event
    {
      this.event := event;
    }
  }

  class BoxSelect {
    var condition: Condition
    var regions: Regions?
    /**
     * Whether the constructor got a Regions instance and so went on to define
     * the box handlers and `registerListeners` on the instance.
     */
    var wired: bool
    var boxStartListener: ListenerKey?
    var boxEndListener: ListenerKey?
    /** the listeners registered on this interaction */
    var listeners: set<ListenerKey>

    /** The keys the interaction holds. */
    function Held(): set<ListenerKey>
      reads this
    {
      (if boxStartListener != null then {boxStartListener} else {})
        + (if boxEndListener != null then {boxEndListener} else {})
    }

    /** Exactly one box-start and one box-end listener are registered, and the interaction holds their keys. */
    predicate Listening()
      reads this
    {
      && boxStartListener != null && boxStartListener.event == BoxStartEvent
      && boxEndListener != null && boxEndListener.event == BoxEndEvent
      && listeners == {boxStartListener, boxEndListener}
    }

    /**
     * Takes the regions source. An argument that is not a Regions instance is
     * passed as null: the interaction then keeps no source, defines no
     * handlers and registers no listener.
     */
    constructor (reference: Regions?)
      ensures condition == PlatformModifierKeyOnly
      ensures regions == reference && wired == (reference != null)
      ensures reference == null ==> listeners == {} && boxStartListener == null && boxEndListener == null
      ensures reference != null ==> Listening() && fresh(boxStartListener) && fresh(boxEndListener)
    {
      condition := PlatformModifierKeyOnly;
      regions := reference;
      wired := reference != null;
      boxStartListener, boxEndListener := null, null;
      listeners := {};
      new;
      if reference != null {
        var _ := RegisterListeners();
      }
    }

    /**
     * `registerListeners`: listens for box start and box end and keeps the two
     * keys. On an instance the constructor left inert the method is not
     * defined and the call throws; `defined` is false and nothing changes.
     */
    method RegisterListeners() returns (defined: bool)
      modifies this
      ensures defined == wired
      ensures regions == old(regions) && wired == old(wired) && condition == old(condition)
      ensures !defined ==> (listeners == old(listeners)
        && boxStartListener == old(boxStartListener) && boxEndListener == old(boxEndListener))
      ensures defined ==>
        && fresh(boxStartListener) && boxStartListener.event == BoxStartEvent
        && fresh(boxEndListener) && boxEndListener.event == BoxEndEvent
        && listeners == old(listeners) + {boxStartListener, boxEndListener}
    {
      defined := wired;
      if !defined {
        return;
      }
      boxStartListener := new ListenerKey(BoxStartEvent);
      listeners := listeners + {boxStartListener};
      boxEndListener := new ListenerKey(BoxEndEvent);
      listeners := listeners + {boxEndListener};
    }

    /** `unregisterListeners`: removes the listeners whose keys it holds; the keys themselves are kept. */
    method UnregisterListeners()
      modifies this`listeners
      ensures listeners == old(listeners) - Held()
    {
      if boxStartListener != null {
        listeners := listeners - {boxStartListener};
      }
      if boxEndListener != null {
        listeners := listeners - {boxEndListener};
      }
    }

    /** `resetListeners`: unregister, then register again; it keeps the interaction listening. */
    method ResetListeners() returns (defined: bool)
      modifies this
      ensures defined == wired
      ensures regions == old(regions) && wired == old(wired) && condition == old(condition)
      ensures defined ==> (listeners == (old(listeners) - old(Held())) + {boxStartListener, boxEndListener}
        && fresh(boxStartListener) && boxStartListener.event == BoxStartEvent
        && fresh(boxEndListener) && boxEndListener.event == BoxEndEvent)
      ensures !defined ==> listeners == old(listeners) - old(Held())
      ensures !defined ==> boxStartListener == old(boxStartListener) && boxEndListener == old(boxEndListener)
      ensures old(Listening()) && defined ==> Listening()
    {
      UnregisterListeners();
      defined := RegisterListeners();
    }

    /** `disposeInternal`: removes the held listeners and drops the regions source. */
    method DisposeInternal()
      modifies this
      ensures regions == null
      ensures listeners == old(listeners) - old(Held())
      ensures old(Listening()) ==> listeners == {}
      ensures wired == old(wired) && condition == old(condition)
      ensures boxStartListener == old(boxStartListener) && boxEndListener == old(boxEndListener)
    {
      UnregisterListeners();
      regions := null;
    }

    /** The box-start handler: clears the selection when there is a selection manager. */
    method BoxStart()
      requires regions != null
      modifies regions.select
      ensures regions.select != null ==> regions.select.selection == {}
    {
      if regions.select != null {
        regions.select.ClearSelection();
      }
    }

    /**
     * The box-end handler. Without a selection manager nothing happens.
     * Otherwise each feature is visited once, in order: unclustered, a hit
     * feature is added to the selection and any other gets `selected = false`;
     * clustered, each candidate that is hit is added and nothing is written.
     * Then the source is told it changed, once.
     */
    method BoxEnd(box: Extent, intersects: (Geometry, Extent) -> bool)
      requires regions != null
      modifies regions, regions.select
      ensures regions.select == old(regions.select)
      ensures old(regions.select) == null ==>
        regions.features == old(regions.features) && regions.revision == old(regions.revision)
      ensures old(regions.select) != null ==>
        && regions.select.selection == old(regions.select.selection)
             + BoxEndSelection(old(regions.features), box, intersects,
                               regions.useClustering, regions.useClusteredCollection)
        && regions.features == BoxEndFeatures(old(regions.features), box, intersects, regions.useClustering)
        && regions.revision == old(regions.revision) + 1
    {
      var r := regions;
      var sel := r.select;
      if sel == null {
        return;
      }
      if !r.useClustering {
        VisitUnclustered(r, sel, box, intersects);
      } else {
        VisitClustered(r, sel, box, intersects);
      }
      r.Changed();
    }
  }

  /** `getFeatures().forEach` with the unclustered callback. */
  method VisitUnclustered(r: Regions, sel: SelectionManager, box: Extent, intersects: (Geometry, Extent) -> bool)
    modifies r`features, sel
    ensures sel.selection == old(sel.selection) + HitIds(old(r.features), box, intersects)
    ensures r.features == Deselected(old(r.features), box, intersects)
  {
    var fs := r.features;
    var i := 0;
    while i < |fs|
      invariant 0 <= i <= |fs|
      invariant |r.features| == |fs|
      invariant forall k :: 0 <= k < i ==> r.features[k] == Deselected(fs, box, intersects)[k]
      invariant forall k :: i <= k < |fs| ==> r.features[k] == fs[k]
      invariant sel.selection == old(sel.selection) + HitIds(fs[..i], box, intersects)
    {
      var feature := fs[i];
      if Hit(feature, box, intersects) {
        sel.ToggleFeatureSelection(feature, true);
      } else {
        r.features := r.features[i := feature.(selected := false)];
      }
      assert fs[..i + 1][..i] == fs[..i];
      i := i + 1;
    }
    assert fs[..i] == fs;
    assert r.features == Deselected(fs, box, intersects);
  }

  /** The clustered callback's loop over one `featureList`: each hit candidate is added to the selection. */
  method SelectHits(sel: SelectionManager, featureList: seq<Feature>, box: Extent, intersects: (Geometry, Extent) -> bool)
    modifies sel
    ensures sel.selection == old(sel.selection) + HitIds(featureList, box, intersects)
  {
    var j := 0;
    while j < |featureList|
      invariant 0 <= j <= |featureList|
      invariant sel.selection == old(sel.selection) + HitIds(featureList[..j], box, intersects)
    {
      if Hit(featureList[j], box, intersects) {
        sel.ToggleFeatureSelection(featureList[j], true);
      }
      assert featureList[..j + 1][..j] == featureList[..j];
      j := j + 1;
    }
    assert featureList[..j] == featureList;
  }

  /** `getFeatures().forEach` with the clustered callback: the feature list is only read. */
  method VisitClustered(r: Regions, sel: SelectionManager, box: Extent, intersects: (Geometry, Extent) -> bool)
    modifies sel
    ensures sel.selection == old(sel.selection) + ClusteredHitIds(r.features, box, intersects, r.useClusteredCollection)
  {
    var fs := r.features;
    var i := 0;
    while i < |fs|
      invariant 0 <= i <= |fs|
      invariant sel.selection == old(sel.selection)
        + ClusteredHitIds(fs[..i], box, intersects, r.useClusteredCollection)
    {
      var feature := fs[i];
      var featureList := [feature];
      if !r.useClusteredCollection && feature.kind.Cluster? {
        if ExtentsIntersect(box, feature.kind.bbox) {
          featureList := feature.kind.members;
        } else {
          featureList := [];
        }
      }
      SelectHits(sel, featureList, box, intersects);
      assert fs[..i + 1][..i] == fs[..i];
      i := i + 1;
    }
    assert fs[..i] == fs;
  }
}
