/**
 * Whether a SketchUp layer (tag) is really visible, taking the tag folders
 * introduced in SketchUp 2021 into account (layer_visibility.rb).
 */
module LayerVisibility {
  import opened Wrappers

  /** `Sketchup.version_number` of the first release with tag folders (SketchUp 2021). */
  const FolderVersion: nat := 2100000000

  /** A layer, or a layer folder, with its own visibility flag and the folder that encloses it. */
  datatype Layer = Layer(visible: bool, folder: Option<Layer>)

  /** The visibility flags along the folder chain: the layer itself first, then its folders outward. */
  function Chain(l: Layer): (flags: seq<bool>)
    ensures |flags| >= 1 && flags[0] == l.visible
  {
    match l.folder
    case None => [l.visible]
    case Some(f) => [l.visible] + Chain(f)
  }

  predicate AllVisible(flags: seq<bool>)
  {
    forall i :: 0 <= i < |flags| ==> flags[i]
  }

  /**
   * `layer_visible?`: a hidden layer is never visible; before SketchUp 2021 a
   * visible layer is visible whatever its folders; from SketchUp 2021 on the
   * layer and every folder enclosing it must be visible.
   */
  function LayerVisible(l: Layer, version: nat): (r: bool)
    ensures !l.visible ==> !r
    ensures version < FolderVersion ==> (r <==> l.visible)
    ensures version >= FolderVersion && l.folder.None? ==> (r <==> l.visible)
  {
    if l.visible then
      if version < FolderVersion then true
      else
        match l.folder
        case Some(f) => LayerVisible(f, version)
        case None => true
    else
      false
  }

  /** From SketchUp 2021 on, a layer is visible exactly when it and every folder enclosing it are visible. */
  lemma {:induction false} LayerVisibleAllFolders(l: Layer, version: nat)
    requires version >= FolderVersion
    ensures LayerVisible(l, version) <==> AllVisible(Chain(l))
  {
    match l.folder
    case None =>
      assert Chain(l) == [l.visible];
    case Some(f) =>
      AllVisibleUnfold(l, f);
      LayerVisibleAllFolders(f, version);
  }

  /** A chain is all visible exactly when the layer is visible and its folder's chain is all visible. */
  lemma AllVisibleUnfold(l: Layer, f: Layer)
    requires l.folder == Some(f)
    ensures AllVisible(Chain(l)) <==> l.visible && AllVisible(Chain(f))
  {
    var c, d := Chain(l), Chain(f);
    assert c == [l.visible] + d;
    if AllVisible(c) {
      assert c[0] == l.visible;
      forall j | 0 <= j < |d| ensures d[j] {
        assert c[j + 1] == d[j];
      }
    } else {
      var i :| 0 <= i < |c| && !c[i];
      if i > 0 {
        assert c[i] == d[i - 1];
      }
    }
  }
}
