/**
 * The IFC model registry (IfcModel.rb): the object that numbers every IFC
 * entity as it is created, keeps them in creation order, counts them per
 * class for the export summary, caches mapped representations per component
 * definition, and walks the top level of the SketchUp model once.
 *
 * The SketchUp model is given as plain data (the top-level entities with
 * their hidden flag and layer, and the SketchUp version number). The IFC2X3
 * entity classes and the ObjectCreator are not part of this model: an entity
 * constructor is modelled as registering one abstract object through Add, and
 * the ObjectCreator as a function giving the objects it registers for one
 * top-level group or component instance.
 */
module IfcRegistry {
  import opened Wrappers
  import opened LayerVisibility

  // ---------------------------------------------------------------------------
  // Export options

  /** The value of an export option: a flag, or a list of names (IFC entity types, attribute dictionaries). */
  datatype OptionValue = Flag(on: bool) | Names(names: seq<string>)

  /** The options hash, keyed by the option's symbol name. */
  type Options = map<string, OptionValue>

  /** The defaults table of `IfcModel#initialize`. */
  const Defaults: Options := map[
    "ifc_entities" := Flag(false),
    "hidden" := Flag(false),
    "attributes" := Names(["SU_DefinitionSet", "SU_InstanceSet"]),
    "classifications" := Flag(true),
    "layers" := Flag(true),
    "materials" := Flag(true),
    "styles" := Flag(true),
    "geometry" := Flag(true),
    "fast_guid" := Flag(false),
    "dynamic_attributes" := Flag(true),
    "mapped_items" := Flag(false)
  ]

  /** `defaults.merge(options)`: a key the caller gives takes the caller's value, every other key keeps its default. */
  function MergeOptions(defaults: Options, given: Options): (r: Options)
    ensures r.Keys == defaults.Keys + given.Keys
    ensures forall k :: k in given ==> r[k] == given[k]
    ensures forall k :: k in defaults && k !in given ==> r[k] == defaults[k]
  {
    defaults + given
  }

  /** `@options[:hidden] == false`: only the value false itself switches hidden entities off. */
  predicate SkipsHidden(options: Options)
  {
    "hidden" in options && options["hidden"] == Flag(false)
  }

  /** Hidden entities are left out unless the caller sets `hidden` to something other than false. */
  lemma MergedSkipsHidden(given: Options)
    ensures SkipsHidden(MergeOptions(Defaults, given)) <==>
            ("hidden" !in given || given["hidden"] == Flag(false))
  {
  }

  // ---------------------------------------------------------------------------
  // The top level of the SketchUp model

  datatype Kind = Group | ComponentInstance | Face | Other

  /** A top-level SketchUp entity: its kind, `hidden?`, its layer and an identity. */
  datatype SourceEntity = SourceEntity(kind: Kind, hidden: bool, layer: Layer, tag: nat)

  /** The kinds handed to the ObjectCreator. */
  const CreatorKinds: set<Kind> := {Group, ComponentInstance}

  /** The kind collected as loose faces. */
  const FaceKinds: set<Kind> := {Face}

  /** The entity is skipped: hidden entities are left out and it is hidden or on an invisible layer. */
  predicate Skipped(options: Options, e: SourceEntity, version: nat)
  {
    SkipsHidden(options) && (e.hidden || !LayerVisible(e.layer, version))
  }

  predicate Picked(options: Options, e: SourceEntity, version: nat, kinds: set<Kind>)
  {
    !Skipped(options, e, version) && e.kind in kinds
  }

  /** The entity on its own when it is picked, nothing otherwise. */
  function PickedPart(options: Options, e: SourceEntity, version: nat, kinds: set<Kind>): seq<SourceEntity>
  {
    if Picked(options, e, version, kinds) then [e] else []
  }

  /** The entities, in model order, that are not skipped and have one of the given kinds. */
  function Selected(options: Options, entities: seq<SourceEntity>, version: nat, kinds: set<Kind>): seq<SourceEntity>
  {
    if entities == [] then []
    else
      Selected(options, entities[..|entities| - 1], version, kinds) +
      PickedPart(options, entities[|entities| - 1], version, kinds)
  }

  /**
   * Every entity that is not skipped and has one of the kinds is selected
   * exactly as often as it occurs; no other entity is selected.
   */
  lemma {:induction false} SelectedCount(options: Options, entities: seq<SourceEntity>, version: nat, kinds: set<Kind>)
    ensures forall e :: multiset(Selected(options, entities, version, kinds))[e] ==
                        if Picked(options, e, version, kinds) then multiset(entities)[e] else 0
  {
    if entities != [] {
      var init, last := entities[..|entities| - 1], entities[|entities| - 1];
      SelectedCount(options, init, version, kinds);
      assert entities == init + [last];
    }
  }

  /** Selection keeps model order: selecting from two runs of entities is selecting from each in turn. */
  lemma {:induction false} SelectedConcat(options: Options, a: seq<SourceEntity>, b: seq<SourceEntity>, version: nat, kinds: set<Kind>)
    ensures Selected(options, a + b, version, kinds) ==
            Selected(options, a, version, kinds) + Selected(options, b, version, kinds)
    decreases |b|
  {
    if b != [] {
      var init, last := b[..|b| - 1], b[|b| - 1];
      assert (a + b)[..|a + b| - 1] == a + init;
      SelectedConcat(options, a, init, version, kinds);
    } else {
      assert a + b == a;
    }
  }

  /** One more entity: it is selected at the end exactly when it is picked. */
  lemma SelectedStep(options: Options, entities: seq<SourceEntity>, i: nat, version: nat, kinds: set<Kind>)
    requires i < |entities|
    ensures Selected(options, entities[..i + 1], version, kinds) ==
            Selected(options, entities[..i], version, kinds) + PickedPart(options, entities[i], version, kinds)
  {
    assert entities[..i + 1][..i] == entities[..i];
  }

  /** A group or component instance is never collected as a face, and a face is never handed to the ObjectCreator. */
  lemma {:induction false} SelectionsDisjoint(options: Options, entities: seq<SourceEntity>, version: nat)
    ensures forall e :: e in Selected(options, entities, version, CreatorKinds) ==> e !in Selected(options, entities, version, FaceKinds)
  {
    SelectedCount(options, entities, version, CreatorKinds);
    SelectedCount(options, entities, version, FaceKinds);
    forall e | e in Selected(options, entities, version, CreatorKinds)
      ensures e !in Selected(options, entities, version, FaceKinds)
    {
      assert multiset(Selected(options, entities, version, CreatorKinds))[e] > 0;
    }
  }

  // ---------------------------------------------------------------------------
  // IFC objects

  /**
   * The IFC classes the registry itself creates, and any other class an
   * entity constructor called from the ObjectCreator creates. The default
   * element's proxy and brep carry data and are constructors of IfcEntity.
   */
  datatype IfcClass =
    | IfcOwnerHistory | IfcPersonAndOrganization | IfcPerson | IfcOrganization | IfcApplication
    | IfcProject | IfcGeometricRepresentationContext | IfcAxis2Placement3D | IfcCartesianPoint | IfcDirection
    | IfcSite | IfcBuilding | IfcBuildingStorey
    | IfcProductDefinitionShape | IfcLocalPlacement
    | OtherClass(name: string)

  /** An IFC entity as the registry sees it; the attributes set after construction are not modelled. */
  datatype IfcEntity =
    | Entity(cls: IfcClass)
    | BuildingElementProxy(name: string)
    | FacetedBrep(faces: seq<SourceEntity>)

  const DefaultElementName: string := "Default Building Element"

  /** What `create_ownerhistory` registers, in order. */
  const OwnerHistoryObjects: seq<IfcEntity> := [
    Entity(IfcOwnerHistory), Entity(IfcPersonAndOrganization), Entity(IfcPerson),
    Entity(IfcOrganization), Entity(IfcApplication)
  ]

  /** What `create_representationcontext` registers, in order. */
  const ContextObjects: seq<IfcEntity> := [
    Entity(IfcGeometricRepresentationContext), Entity(IfcAxis2Placement3D),
    Entity(IfcCartesianPoint), Entity(IfcDirection)
  ]

  /** What `initialize` registers before it walks the model. */
  const InitialObjects: seq<IfcEntity> := OwnerHistoryObjects + [Entity(IfcProject)] + ContextObjects

  /** The objects registered for the loose faces, in order: the proxy, its shape, the combined brep and its placement. */
  function DefaultElementObjects(faces: seq<SourceEntity>): seq<IfcEntity>
  {
    [BuildingElementProxy(DefaultElementName), Entity(IfcProductDefinitionShape),
     FacetedBrep(faces), Entity(IfcLocalPlacement)]
  }

  /** The default spatial chain below the project, created on first use. */
  const DefaultChainObjects: seq<IfcEntity> := [Entity(IfcSite), Entity(IfcBuilding), Entity(IfcBuildingStorey)]

  /** The objects the ObjectCreator registers for one top-level entity under the given parent. */
  type Creator = (SourceEntity, nat) -> seq<IfcEntity>

  /** The objects the ObjectCreator registers for each of the entities in turn. */
  function Created(entities: seq<SourceEntity>, creator: Creator, parent: nat): seq<IfcEntity>
  {
    if entities == [] then []
    else Created(entities[..|entities| - 1], creator, parent) + creator(entities[|entities| - 1], parent)
  }

  lemma AppendAssociative<T>(a: seq<T>, b: seq<T>, c: seq<T>)
    ensures (a + b) + c == a + (b + c)
  {
  }

  /** The ObjectCreator's objects for two runs of entities are those of the first run, then those of the second. */
  lemma {:induction false} CreatedConcat(a: seq<SourceEntity>, b: seq<SourceEntity>, creator: Creator, parent: nat)
    ensures Created(a + b, creator, parent) == Created(a, creator, parent) + Created(b, creator, parent)
    decreases |b|
  {
    if b == [] {
      assert a + b == a;
    } else {
      var init := b[..|b| - 1];
      assert (a + b)[..|a + b| - 1] == a + init;
      CreatedConcat(a, init, creator, parent);
    }
  }

  // ---------------------------------------------------------------------------
  // Export summary

  function SummaryCount(summary: map<string, nat>, className: string): nat
  {
    if className in summary then summary[className] else 0
  }

  /** `summary_add`: the count of the class goes up by one, starting from 1; every other count stays. */
  function SummaryStep(summary: map<string, nat>, className: string): (r: map<string, nat>)
    ensures r.Keys == summary.Keys + {className}
    ensures SummaryCount(r, className) == SummaryCount(summary, className) + 1
    ensures forall c :: c != className ==> SummaryCount(r, c) == SummaryCount(summary, c)
  {
    summary[className := if className in summary then summary[className] + 1 else 1]
  }

  /** The summary after `summary_add` for each class name in turn, from an empty summary. */
  function SummaryOf(classNames: seq<string>): map<string, nat>
  {
    if classNames == [] then map[]
    else SummaryStep(SummaryOf(classNames[..|classNames| - 1]), classNames[|classNames| - 1])
  }

  /** The summary counts every class name exactly as often as it was added, and holds no other name. */
  lemma {:induction false} SummaryCountsOccurrences(classNames: seq<string>)
    ensures forall c :: SummaryCount(SummaryOf(classNames), c) == multiset(classNames)[c]
    ensures SummaryOf(classNames).Keys == set c | c in classNames
  {
    if classNames != [] {
      var init, last := classNames[..|classNames| - 1], classNames[|classNames| - 1];
      SummaryCountsOccurrences(init);
      assert classNames == init + [last];
    }
  }

  // ---------------------------------------------------------------------------
  // The registry's state as a value

  /**
   * What the registry holds: the registered objects in creation order (the
   * object with id `n` is `objects[n - 1]`), the default chain (the default
   * site of the project, the default building of that site and the default
   * storey of that building, as far as they exist) and, per spatial
   * structure, the ids of the elements contained in it in the order added.
   */
  datatype Registry = Registry(objects: seq<IfcEntity>, chain: seq<nat>, contained: map<nat, seq<nat>>)

  /** The object with id `id` is registered and is the default-chain object of the given level. */
  ghost predicate ChainLink(objects: seq<IfcEntity>, id: nat, level: nat)
    requires level < |DefaultChainObjects|
  {
    1 <= id <= |objects| && objects[id - 1] == DefaultChainObjects[level]
  }

  /** The default chain holds a registered site, building and storey, in that order, as far as it goes. */
  ghost predicate RegistryValid(r: Registry)
  {
    && |r.chain| <= |DefaultChainObjects|
    && (|r.chain| > 0 ==> ChainLink(r.objects, r.chain[0], 0))
    && (|r.chain| > 1 ==> ChainLink(r.objects, r.chain[1], 1))
    && (|r.chain| > 2 ==> ChainLink(r.objects, r.chain[2], 2))
  }

  function ContainedIn(contained: map<nat, seq<nat>>, structure: nat): seq<nat>
  {
    if structure in contained then contained[structure] else []
  }

  /** The ids `n + 1` to `n + count`: those of `count` objects registered after `n` others. */
  function NextIds(n: nat, count: nat): seq<nat>
  {
    seq(count, k => n + k + 1)
  }

  /** Registering more objects leaves the chain and the containment as they are. */
  function Register(r: Registry, objs: seq<IfcEntity>): Registry
  {
    Registry(r.objects + objs, r.chain, r.contained)
  }

  /** The next level of the default chain is created: its object is registered and its id remembered. */
  function ChainStep(r: Registry): Registry
    requires |r.chain| < |DefaultChainObjects|
  {
    Registry(r.objects + [DefaultChainObjects[|r.chain|]], r.chain + [|r.objects| + 1], r.contained)
  }

  /** The default chain completed: whatever of site, building and storey is missing is created, in order. */
  function CompleteChain(r: Registry): (c: Registry)
    requires |r.chain| <= |DefaultChainObjects|
    ensures |c.chain| == |DefaultChainObjects|
    ensures |c.objects| == |r.objects| + |DefaultChainObjects| - |r.chain|
    decreases |DefaultChainObjects| - |r.chain|
  {
    if |r.chain| == |DefaultChainObjects| then r else CompleteChain(ChainStep(r))
  }

  /**
   * The tail of `create_ifc_objects`: the default building element of the
   * faces (proxy, shape, brep and placement) is registered, the default chain
   * is completed, and the proxy is appended to what the default storey contains.
   */
  function WithDefaultElement(r: Registry, faces: seq<SourceEntity>): Registry
    requires |r.chain| <= |DefaultChainObjects|
  {
    var done := CompleteChain(Register(r, DefaultElementObjects(faces)));
    var storey := done.chain[2];
    Registry(done.objects, done.chain, done.contained[storey := ContainedIn(done.contained, storey) + [|r.objects| + 1]])
  }

  /**
   * `create_ifc_objects` on values: the ObjectCreator's objects for every
   * group and component instance not skipped, in model order, then the
   * default building element when any face was collected.
   */
  function CreateObjects(r: Registry, options: Options, entities: seq<SourceEntity>, version: nat, creator: Creator, parent: nat): Registry
    requires |r.chain| <= |DefaultChainObjects|
  {
    var made := Register(r, Created(Selected(options, entities, version, CreatorKinds), creator, parent));
    var faces := Selected(options, entities, version, FaceKinds);
    if faces == [] then made else WithDefaultElement(made, faces)
  }

  /** Registering objects keeps the registry valid and every earlier object where it was. */
  lemma RegisterValid(r: Registry, objs: seq<IfcEntity>)
    requires RegistryValid(r)
    ensures RegistryValid(Register(r, objs))
    ensures r.objects <= Register(r, objs).objects
  {
  }

  /** Creating the next level of the chain keeps the registry valid and every earlier object where it was. */
  lemma ChainStepValid(r: Registry)
    requires RegistryValid(r) && |r.chain| < |DefaultChainObjects|
    ensures RegistryValid(ChainStep(r))
    ensures r.objects <= ChainStep(r).objects && r.chain <= ChainStep(r).chain
  {
  }

  /**
   * Completing the chain keeps the registry valid and ends with a full chain
   * whose last entry is a registered storey: exactly the missing levels are
   * registered, in order, and each new link is the id its object got. A full
   * chain is left alone.
   */
  lemma {:induction false} CompleteChainValid(r: Registry)
    requires RegistryValid(r)
    ensures var c := CompleteChain(r);
            && RegistryValid(c)
            && |c.chain| == |DefaultChainObjects|
            && c.objects[c.chain[2] - 1] == Entity(IfcBuildingStorey)
            && r.objects <= c.objects && r.chain <= c.chain && c.contained == r.contained
            && c.objects == r.objects + DefaultChainObjects[|r.chain|..]
            && c.chain == r.chain + NextIds(|r.objects|, |DefaultChainObjects| - |r.chain|)
            && (|r.chain| == |DefaultChainObjects| ==> c == r)
    decreases |DefaultChainObjects| - |r.chain|
  {
    if |r.chain| < |DefaultChainObjects| {
      var s := ChainStep(r);
      ChainStepValid(r);
      CompleteChainValid(s);
      assert DefaultChainObjects[|r.chain|..] == [DefaultChainObjects[|r.chain|]] + DefaultChainObjects[|s.chain|..];
      assert NextIds(|r.objects|, |DefaultChainObjects| - |r.chain|) ==
             [|r.objects| + 1] + NextIds(|s.objects|, |DefaultChainObjects| - |s.chain|);
      PrefixTransitive(r.objects, ChainStep(r).objects, CompleteChain(r).objects);
      PrefixTransitive(r.chain, ChainStep(r).chain, CompleteChain(r).chain);
    }
  }

  lemma PrefixTransitive<T>(a: seq<T>, b: seq<T>, c: seq<T>)
    requires a <= b && b <= c
    ensures a <= c
  {
    assert c[..|a|] == b[..|a|];
  }

  /**
   * The default element keeps the registry valid, registers its four objects
   * right after the earlier ones, keeps the earlier part of the chain, and
   * leaves what every structure other than the default storey contains as it was.
   */
  lemma {:induction false} DefaultElementValid(r: Registry, faces: seq<SourceEntity>)
    requires RegistryValid(r)
    ensures var w := WithDefaultElement(r, faces);
            && RegistryValid(w)
            && r.objects + DefaultElementObjects(faces) <= w.objects
            && r.chain <= w.chain
            && (forall s | s in r.contained && s != w.chain[2] :: s in w.contained && w.contained[s] == r.contained[s])
            && (forall s | s != w.chain[2] :: ContainedIn(w.contained, s) == ContainedIn(r.contained, s))
  {
    var placed := Register(r, DefaultElementObjects(faces));
    RegisterValid(r, DefaultElementObjects(faces));
    CompleteChainValid(placed);
  }

  /**
   * The default element: the proxy holding all the faces is registered right
   * after the earlier objects, and it is contained in the default storey of a
   * complete default chain.
   */
  lemma {:induction false} DefaultElementPlaced(r: Registry, faces: seq<SourceEntity>)
    requires RegistryValid(r)
    ensures var w := WithDefaultElement(r, faces);
            var n := |r.objects|;
            && n + 2 < |w.objects|
            && w.objects[n] == BuildingElementProxy(DefaultElementName)
            && w.objects[n + 2] == FacetedBrep(faces)
            && 1 <= w.chain[2] <= |w.objects| && w.objects[w.chain[2] - 1] == Entity(IfcBuildingStorey)
            && w.contained[w.chain[2]] == ContainedIn(r.contained, w.chain[2]) + [n + 1]
  {
    var placed := Register(r, DefaultElementObjects(faces));
    RegisterValid(r, DefaultElementObjects(faces));
    CompleteChainValid(placed);
    var n := |r.objects|;
    var done := CompleteChain(placed);
    assert done.objects[n] == placed.objects[n] && done.objects[n + 2] == placed.objects[n + 2];
  }

  /** On a registry without a default chain, the site, building and storey follow the default element's four objects. */
  lemma {:induction false} DefaultElementFresh(r: Registry, faces: seq<SourceEntity>)
    requires r.chain == []
    ensures var n := |r.objects|;
            var w := WithDefaultElement(r, faces);
            && w.objects == r.objects + DefaultElementObjects(faces) + DefaultChainObjects
            && w.chain == [n + 5, n + 6, n + 7]
            && w.contained == r.contained[n + 7 := ContainedIn(r.contained, n + 7) + [n + 1]]
  {
    var placed := Register(r, DefaultElementObjects(faces));
    var site := ChainStep(placed);
    var building := ChainStep(site);
    var storey := ChainStep(building);
    assert CompleteChain(placed) == storey by {
      assert CompleteChain(placed) == CompleteChain(site);
      assert CompleteChain(site) == CompleteChain(building);
      assert CompleteChain(building) == CompleteChain(storey);
    }
    assert storey.objects == r.objects + DefaultElementObjects(faces) + DefaultChainObjects;
  }

  /** With a complete default chain, a further default element registers only its own four objects. */
  lemma {:induction false} DefaultElementReusesChain(r: Registry, faces: seq<SourceEntity>)
    requires |r.chain| == |DefaultChainObjects|
    ensures var w := WithDefaultElement(r, faces);
            && w.objects == r.objects + DefaultElementObjects(faces)
            && w.chain == r.chain
  {
  }

  /**
   * What `create_ifc_objects` ends with, given what the ObjectCreator made
   * and the collected faces: the default building element is made exactly
   * when some face was collected. Either way the registry stays valid and
   * what was made comes first.
   */
  lemma {:induction false} FinishOutcome(r: Registry, created: seq<IfcEntity>, faces: seq<SourceEntity>)
    requires RegistryValid(r)
    ensures var made := Register(r, created);
            var c := if faces == [] then made else WithDefaultElement(made, faces);
            && RegistryValid(c)
            && made.objects <= c.objects
            && (faces == [] <==> |c.objects| == |made.objects|)
  {
    var made := Register(r, created);
    RegisterValid(r, created);
    if faces != [] {
      DefaultElementValid(made, faces);
      var c := WithDefaultElement(made, faces);
      PrefixTransitive(made.objects, made.objects + DefaultElementObjects(faces), c.objects);
    }
  }

  /**
   * The default building element is made exactly when some face was
   * collected; without one, only the ObjectCreator's objects are registered.
   * Either way the registry stays valid and what was made comes first.
   */
  lemma {:induction false} CreateObjectsOutcome(r: Registry, options: Options, entities: seq<SourceEntity>, version: nat, creator: Creator, parent: nat)
    requires RegistryValid(r)
    ensures var c := CreateObjects(r, options, entities, version, creator, parent);
            var made := r.objects + Created(Selected(options, entities, version, CreatorKinds), creator, parent);
            var faces := Selected(options, entities, version, FaceKinds);
            && RegistryValid(c)
            && made <= c.objects
            && (faces == [] <==> |c.objects| == |made|)
            && (faces == [] ==> c == Registry(made, r.chain, r.contained))
  {
    FinishOutcome(r, Created(Selected(options, entities, version, CreatorKinds), creator, parent), Selected(options, entities, version, FaceKinds));
  }

  // ---------------------------------------------------------------------------
  // The registry

  class IfcModel {
    var options: Options
    /** The last id handed out. */
    var ifcId: nat
    var exportSummary: map<string, nat>
    var ifcObjects: seq<IfcEntity>
    /** Component definition to the id of its mapped representation. */
    var mappedRepresentations: map<nat, nat>
    var ownerHistory: nat
    var project: nat
    var representationContext: nat
    var defaultChain: seq<nat>
    var containedElements: map<nat, seq<nat>>

    /** The objects, the default chain and the containment, as a `Registry` value. */
    ghost function State(): Registry
      reads this
    {
      Registry(ifcObjects, defaultChain, containedElements)
    }

    /** The last id handed out is the number of registered objects, and the registry is valid. */
    ghost predicate Valid()
      reads this
    {
      ifcId == |ifcObjects| && RegistryValid(State())
    }

    /**
     * `initialize`: merge the options over the defaults, create the owner
     * history, the project and the representation context in that order, then
     * walk the model.
     */
    constructor (suModel: seq<SourceEntity>, given: Options, version: nat, creator: Creator)
      ensures Valid()
      ensures options == MergeOptions(Defaults, given)
      ensures ownerHistory == 1 && project == 6 && representationContext == 7
      ensures exportSummary == map[] && mappedRepresentations == map[]
      ensures State() == CreateObjects(Registry(InitialObjects, [], map[]), options, suModel, version, creator, 6)
    {
      options := MergeOptions(Defaults, given);
      ifcId := 0;
      exportSummary := map[];
      ifcObjects := [];
      mappedRepresentations := map[];
      defaultChain := [];
      containedElements := map[];
      ownerHistory, project, representationContext := 0, 0, 0;
      new;
      Populate(suModel, version, creator);
    }

    /**
     * The rest of `initialize` once the fields are set: the owner history, the
     * project and the representation context, then the objects of the model.
     */
    method Populate(suModel: seq<SourceEntity>, version: nat, creator: Creator)
      requires Valid() && State() == Registry([], [], map[])
      modifies this`ifcObjects, this`ifcId, this`defaultChain, this`containedElements, this`ownerHistory, this`project, this`representationContext
      ensures Valid()
      ensures ownerHistory == 1 && project == 6 && representationContext == 7
      ensures State() == CreateObjects(Registry(InitialObjects, [], map[]), options, suModel, version, creator, 6)
    {
      CreateHeader();
      assert State() == Registry(InitialObjects, [], map[]);
      var objects := CreateIfcObjects(suModel, version, creator);
    }

    /** The objects every export starts with: the owner history, the project and the representation context. */
    method CreateHeader()
      requires Valid()
      modifies this`ifcObjects, this`ifcId, this`ownerHistory, this`project, this`representationContext
      ensures Valid()
      ensures ifcObjects == old(ifcObjects) + InitialObjects
      ensures ownerHistory == old(ifcId) + 1 && project == old(ifcId) + 6 && representationContext == old(ifcId) + 7
    {
      ownerHistory := CreateOwnerHistory();
      project := CreateProject();
      representationContext := CreateRepresentationContext();
    }

    /** `new_id`: the counter goes up by one and its new value is the id. */
    method NewId() returns (id: nat)
      modifies this`ifcId
      ensures ifcId == old(ifcId) + 1 && id == ifcId
    {
      ifcId := ifcId + 1;
      id := ifcId;
    }

    /**
     * `add`: the object goes at the end of `ifcObjects`, earlier objects stay
     * where they are, and its id is the new length, one more than every id
     * handed out before.
     */
    method Add(obj: IfcEntity) returns (id: nat)
      requires Valid()
      modifies this`ifcObjects, this`ifcId
      ensures Valid()
      ensures ifcObjects == old(ifcObjects) + [obj]
      ensures id == old(ifcId) + 1 && id == |ifcObjects| && ifcObjects[id - 1] == obj
    {
      RegisterValid(State(), [obj]);
      ifcObjects := ifcObjects + [obj];
      id := NewId();
    }

    /** Registers the objects in order, as their constructors do one after another; the ids are consecutive. */
    method RegisterAll(objs: seq<IfcEntity>) returns (ids: seq<nat>)
      requires Valid()
      modifies this`ifcObjects, this`ifcId
      ensures Valid()
      ensures ifcObjects == old(ifcObjects) + objs
      ensures ids == NextIds(old(ifcId), |objs|)
    {
      ids := [];
      var i := 0;
      while i < |objs|
        invariant 0 <= i <= |objs|
        invariant Valid()
        invariant ifcObjects == old(ifcObjects) + objs[..i]
        invariant ids == NextIds(old(ifcId), i)
      {
        var id := Add(objs[i]);
        ids := ids + [id];
        assert objs[..i + 1] == objs[..i] + [objs[i]];
        i := i + 1;
      }
      assert objs[..i] == objs;
    }

    /** `add_mapped_representation`: the definition now maps to the object, every other definition is untouched. */
    method AddMappedRepresentation(definition: nat, obj: nat)
      requires Valid()
      modifies this`mappedRepresentations
      ensures Valid()
      ensures MappedRepresentation(definition) == Some(obj)
      ensures forall d :: d != definition ==> MappedRepresentation(d) == old(MappedRepresentation(d))
    {
      mappedRepresentations := mappedRepresentations[definition := obj];
    }

    /** `mapped_representation?`: the object last added for the definition, or nil. */
    function MappedRepresentation(definition: nat): (r: Option<nat>)
      reads this
      ensures r.Some? <==> definition in mappedRepresentations
    {
      if definition in mappedRepresentations then Some(mappedRepresentations[definition]) else None
    }

    /** `summary_add`. */
    method SummaryAdd(className: string)
      requires Valid()
      modifies this`exportSummary
      ensures Valid()
      ensures exportSummary == SummaryStep(old(exportSummary), className)
    {
      if className in exportSummary {
        exportSummary := exportSummary[className := exportSummary[className] + 1];
      } else {
        exportSummary := exportSummary[className := 1];
      }
    }

    /** `create_ownerhistory`: the owner history and the person, organisation and application it refers to. */
    method CreateOwnerHistory() returns (id: nat)
      requires Valid()
      modifies this`ifcObjects, this`ifcId
      ensures Valid()
      ensures ifcObjects == old(ifcObjects) + OwnerHistoryObjects
      ensures id == old(ifcId) + 1
    {
      var ids := RegisterAll(OwnerHistoryObjects);
      id := ids[0];
    }

    /** `create_project`. */
    method CreateProject() returns (id: nat)
      requires Valid()
      modifies this`ifcObjects, this`ifcId
      ensures Valid()
      ensures ifcObjects == old(ifcObjects) + [Entity(IfcProject)]
      ensures id == old(ifcId) + 1
    {
      id := Add(Entity(IfcProject));
    }

    /** `create_representationcontext`: the context, its world coordinate system with its origin, and the true north. */
    method CreateRepresentationContext() returns (id: nat)
      requires Valid()
      modifies this`ifcObjects, this`ifcId
      ensures Valid()
      ensures ifcObjects == old(ifcObjects) + ContextObjects
      ensures id == old(ifcId) + 1
    {
      var ids := RegisterAll(ContextObjects);
      id := ids[0];
    }

    /**
     * `get_default_related_object` at one level of the default chain: of the
     * project (level 0), of its default site (level 1) or of that site's
     * default building (level 2). The first call creates the object of the
     * next class down and remembers it; later calls return it and create
     * nothing.
     */
    method DefaultRelatedObject(level: nat) returns (child: nat)
      requires Valid()
      requires level < |DefaultChainObjects| && level <= |defaultChain|
      modifies this`ifcObjects, this`ifcId, this`defaultChain
      ensures Valid()
      ensures level < |defaultChain| && child == defaultChain[level]
      ensures ifcObjects[child - 1] == DefaultChainObjects[level]
      ensures level < |old(defaultChain)| ==>
                ifcObjects == old(ifcObjects) && defaultChain == old(defaultChain)
      ensures level == |old(defaultChain)| ==>
                && ifcObjects == old(ifcObjects) + [DefaultChainObjects[level]]
                && defaultChain == old(defaultChain) + [child]
                && child == |ifcObjects|
      ensures level == |old(defaultChain)| ==> State() == ChainStep(old(State()))
    {
      if level < |defaultChain| {
        child := defaultChain[level];
      } else {
        child := Add(DefaultChainObjects[level]);
        defaultChain := defaultChain + [child];
      }
    }

    /** The default storey of the default building of the default site of the project, completing that chain. */
    method DefaultStorey() returns (storey: nat)
      requires Valid()
      modifies this`ifcObjects, this`ifcId, this`defaultChain
      ensures Valid()
      ensures State() == CompleteChain(old(State())) && storey == defaultChain[2]
    {
      ghost var completed := CompleteChain(State());
      var site := DefaultRelatedObject(0);
      assert CompleteChain(State()) == completed;
      var building := DefaultRelatedObject(1);
      assert CompleteChain(State()) == completed;
      storey := DefaultRelatedObject(2);
      assert CompleteChain(State()) == completed;
    }

    /** `add_contained_element` of a spatial structure: the element is appended to what the structure contains. */
    method AddContainedElement(structure: nat, element: nat)
      requires Valid()
      modifies this`containedElements
      ensures Valid()
      ensures containedElements ==
                old(containedElements)[structure := ContainedIn(old(containedElements), structure) + [element]]
    {
      containedElements := containedElements[structure := ContainedIn(containedElements, structure) + [element]];
    }

    /**
     * The body of the loop of `create_ifc_objects` for one top-level entity:
     * unless it is skipped, a group or component instance is handed to the
     * ObjectCreator with the project as parent, and a face is reported back
     * for collection; any other kind is ignored.
     */
    method DispatchEntity(ent: SourceEntity, version: nat, creator: Creator) returns (isFace: bool)
      requires Valid()
      modifies this`ifcObjects, this`ifcId
      ensures Valid()
      ensures (if isFace then [ent] else []) == PickedPart(options, ent, version, FaceKinds)
      ensures ifcObjects == old(ifcObjects) + Created(PickedPart(options, ent, version, CreatorKinds), creator, project)
    {
      isFace := false;
      if !Skipped(options, ent, version) {
        match ent.kind
        case Group =>
          var ids := RegisterAll(creator(ent, project));
        case ComponentInstance =>
          var ids := RegisterAll(creator(ent, project));
        case Face =>
          isFace := true;
        case Other =>
      }
    }

    /** The loop of `create_ifc_objects` over the top-level entities, in model order. */
    method DispatchEntities(entities: seq<SourceEntity>, version: nat, creator: Creator) returns (faces: seq<SourceEntity>)
      requires Valid()
      modifies this`ifcObjects, this`ifcId
      ensures Valid()
      ensures faces == Selected(options, entities, version, FaceKinds)
      ensures ifcObjects == old(ifcObjects) + Created(Selected(options, entities, version, CreatorKinds), creator, project)
    {
      faces := [];
      var i := 0;
      while i < |entities|
        invariant 0 <= i <= |entities|
        invariant Valid()
        invariant faces == Selected(options, entities[..i], version, FaceKinds)
        invariant ifcObjects == old(ifcObjects) + Created(Selected(options, entities[..i], version, CreatorKinds), creator, project)
      {
        SelectedStep(options, entities, i, version, FaceKinds);
        SelectedStep(options, entities, i, version, CreatorKinds);
        ghost var made := Selected(options, entities[..i], version, CreatorKinds);
        ghost var next := PickedPart(options, entities[i], version, CreatorKinds);
        CreatedConcat(made, next, creator, project);
        AppendAssociative(old(ifcObjects), Created(made, creator, project), Created(next, creator, project));
        var isFace := DispatchEntity(entities[i], version, creator);
        if isFace {
          faces := faces + [entities[i]];
        }
        i := i + 1;
      }
      assert entities[..i] == entities;
    }

    /** The tail of `create_ifc_objects`: the default building element of the faces, in the default storey. */
    method CreateDefaultElement(faces: seq<SourceEntity>) returns (element: nat)
      requires Valid()
      modifies this`ifcObjects, this`ifcId, this`defaultChain, this`containedElements
      ensures Valid()
      ensures State() == WithDefaultElement(old(State()), faces) && element == |old(ifcObjects)| + 1
    {
      var ids := RegisterAll(DefaultElementObjects(faces));
      element := ids[0];
      var storey := DefaultStorey();
      AddContainedElement(storey, element);
    }

    /** `create_ifc_objects`: dispatch the top level of the model, then make the default building element. */
    method CreateIfcObjects(entities: seq<SourceEntity>, version: nat, creator: Creator) returns (objects: seq<IfcEntity>)
      requires Valid()
      modifies this`ifcObjects, this`ifcId, this`defaultChain, this`containedElements
      ensures Valid() && objects == ifcObjects
      ensures State() == CreateObjects(old(State()), options, entities, version, creator, project)
    {
      var faces := DispatchEntities(entities, version, creator);
      if faces != [] {
        var element := CreateDefaultElement(faces);
      }
      objects := ifcObjects;
    }
  }
}
