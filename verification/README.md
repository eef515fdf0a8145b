# IFC model registry, REAL formatting and layer visibility

This project is a Dafny model of the core of the SketchUp IFC exporter
(IFC manager for SketchUp). It covers three parts.

- `ifc_model.dfy`, module `IfcRegistry`: the `IfcModel` registry.
  - Every IFC entity gets a consecutive id as it is registered. Ids start at 1.
  - Entities are kept in creation order.
  - The export summary counts entities per class.
  - Mapped representations are cached per component definition.
  - Export options are merged over a table of defaults.
  - `initialize` first creates the owner history, the project and the
    representation context. Then `create_ifc_objects` walks the top level of
    the SketchUp model:
    - hidden entities and entities on invisible layers are skipped when the
      `hidden` option is false;
    - groups and component instances are handed to the ObjectCreator;
    - loose faces are collected into one "Default Building Element" proxy;
    - the proxy goes into the default storey of the default building of the
      default site of the project. That chain is created on first use.
- `ifc_real.dfy`, module `IfcReal`: `IfcReal#step`, the STEP text of a REAL.
  The decimal text of the float is upper-cased. A period followed only by
  zeros up to the end of a line is cut back to the period, so "1.0" becomes
  "1.", "100.0" becomes "100.", "1.5" stays "1.5" and "1.0e-05" becomes
  "1.0E-05". The result is the REAL token of ISO 10303-21.
- `layer_visibility.dfy`, module `LayerVisibility`: `layer_visible?`. A layer
  (tag) is visible only if its own flag is set. From SketchUp 2021 on
  (version number 2100000000), every enclosing tag folder must be visible too.

`wrappers.dfy` holds the `Option` type shared by the modules.

The registry is an imperative `class IfcModel` whose methods change its
fields. Its objects, default chain and containment are mirrored by a value,
`Registry`. The composed behaviour is written as pure functions on that value:
- `Register`;
- `ChainStep` and `CompleteChain`;
- `WithDefaultElement`;
- `CreateObjects`.

Each method's `ensures` ties the new state to one of these functions applied
to the old state. The lemmas state what those functions guarantee.

## Model

| member | source | states |
|---|---|---|
| IfcRegistry.MergeOptions | src/bt_ifcmanager/lib/lib_ifc/IfcModel.rb:59-72 | the merged options hold every key of the defaults and of the caller's hash; a key the caller gave has the caller's value, any other key its default |
| IfcRegistry.MergedSkipsHidden | src/bt_ifcmanager/lib/lib_ifc/IfcModel.rb:185 | with the default table, hidden entities are skipped exactly when the caller left `hidden` unset or set it to false |
| IfcRegistry.SelectedCount | src/bt_ifcmanager/lib/lib_ifc/IfcModel.rb:181-195 | an entity is selected as often as it occurs when it is not skipped and has one of the kinds, and never otherwise |
| IfcRegistry.SelectedConcat | src/bt_ifcmanager/lib/lib_ifc/IfcModel.rb:181-195 | selection keeps model order: selecting from two runs of entities is selecting from each in turn |
| IfcRegistry.SelectedStep | src/bt_ifcmanager/lib/lib_ifc/IfcModel.rb:182-194 | one more loop pass appends the entity to the selection exactly when it is picked |
| IfcRegistry.SelectionsDisjoint | src/bt_ifcmanager/lib/lib_ifc/IfcModel.rb:186-192 | no entity is both handed to the ObjectCreator and collected as a face |
| IfcRegistry.CreatedConcat | src/bt_ifcmanager/lib/lib_ifc/IfcModel.rb:187-189 | the ObjectCreator's objects for two runs of entities are those of the first run followed by those of the second |
| IfcRegistry.SummaryStep | src/bt_ifcmanager/lib/lib_ifc/IfcModel.rb:132-138 | adding a class name adds it to the keys and raises its count by one, starting at 1; every other count stays |
| IfcRegistry.SummaryCountsOccurrences | src/bt_ifcmanager/lib/lib_ifc/IfcModel.rb:132-138 | after adding a sequence of class names, each name's count is its number of occurrences and the keys are exactly the names added |
| IfcRegistry.Skipped | src/bt_ifcmanager/lib/lib_ifc/IfcModel.rb:185 | definition: an entity is skipped when the options skip hidden entities and it is hidden or its layer is not visible |
| IfcRegistry.Selected | src/bt_ifcmanager/lib/lib_ifc/IfcModel.rb:181-195 | definition: the entities of the given kinds that are not skipped, in model order; `SelectedCount` and `SelectedConcat` state what it means |
| IfcRegistry.Created | src/bt_ifcmanager/lib/lib_ifc/IfcModel.rb:187-189 | definition: the ObjectCreator's objects for each entity in turn; `CreatedConcat` states that it distributes over concatenation |
| IfcRegistry.CompleteChain | src/bt_ifcmanager/lib/lib_ifc/IfcModel.rb:207-209 | the completed chain has all three levels and as many objects are registered as levels were missing; `CompleteChainValid` states which objects and ids |
| IfcRegistry.WithDefaultElement | src/bt_ifcmanager/lib/lib_ifc/IfcModel.rb:198-212 | definition: the four objects of the default element, then the completed chain, then the proxy appended to the storey's contents; `DefaultElementValid`, `DefaultElementPlaced` and `DefaultElementFresh` state what it means |
| IfcRegistry.CreateObjects | src/bt_ifcmanager/lib/lib_ifc/IfcModel.rb:175-215 | definition: the ObjectCreator's objects for the selected groups and instances, then the default element when a face was selected; `CreateObjectsOutcome` states what it means |
| IfcRegistry.RegisterValid | src/bt_ifcmanager/lib/lib_ifc/IfcModel.rb:105-108 | registering objects keeps the default chain valid and every earlier object at its id |
| IfcRegistry.ChainStepValid | src/bt_ifcmanager/lib/lib_ifc/IfcModel.rb:207-209 | creating the next level of the default chain keeps it valid and keeps earlier objects and links |
| IfcRegistry.CompleteChainValid | src/bt_ifcmanager/lib/lib_ifc/IfcModel.rb:207-209 | the completed chain is valid and full, its third link is a registered IfcBuildingStorey; exactly the missing levels (site, building, storey, from the first missing one on) are appended to the objects in order and their new ids to the chain; containment is kept, and a full chain is left unchanged |
| IfcRegistry.DefaultElementValid | src/bt_ifcmanager/lib/lib_ifc/IfcModel.rb:198-212 | the default element keeps the registry valid, registers proxy, shape, brep and placement right after the earlier objects, keeps the earlier chain, and leaves what every structure other than the default storey contains unchanged, whether or not it contained anything before |
| IfcRegistry.DefaultElementPlaced | src/bt_ifcmanager/lib/lib_ifc/IfcModel.rb:198-212 | the proxy named "Default Building Element" has the next id, the brep two places later holds all the faces, and the proxy is appended to what the default storey contains |
| IfcRegistry.DefaultElementFresh | src/bt_ifcmanager/lib/lib_ifc/IfcModel.rb:198-212 | without a default chain the site, building and storey follow the proxy's four objects with ids n+5, n+6, n+7, and the storey n+7 contains the proxy n+1 |
| IfcRegistry.DefaultElementReusesChain | src/bt_ifcmanager/lib/lib_ifc/IfcModel.rb:207-209 | with a full default chain a further default element registers only its own four objects and reuses the chain |
| IfcRegistry.FinishOutcome | src/bt_ifcmanager/lib/lib_ifc/IfcModel.rb:198-212 | the default element is made exactly when some face was collected; the registry stays valid and what was made before comes first |
| IfcRegistry.CreateObjectsOutcome | src/bt_ifcmanager/lib/lib_ifc/IfcModel.rb:175-215 | walking the model registers the ObjectCreator's objects for the selected groups and instances in model order; more objects follow exactly when a face was collected; with no face nothing else changes; the registry stays valid |
| IfcRegistry.IfcModel.constructor | src/bt_ifcmanager/lib/lib_ifc/IfcModel.rb:57-102 | options are the defaults merged with the caller's; owner history, project and context get ids 1, 6 and 7; summary and mapped representations are left empty by the registry's own code; the state is the model's objects created after the ten initial ones |
| IfcRegistry.IfcModel.Populate | src/bt_ifcmanager/lib/lib_ifc/IfcModel.rb:89-101 | from an empty registry: the initial objects with ids 1, 6 and 7 for owner history, project and context, then the model walked with the project as parent |
| IfcRegistry.IfcModel.CreateHeader | src/bt_ifcmanager/lib/lib_ifc/IfcModel.rb:89-96 | appends the owner history's five objects, the project and the context's four objects; their ids are the next id, the next plus 5 and the next plus 6 |
| IfcRegistry.IfcModel.NewId | src/bt_ifcmanager/lib/lib_ifc/IfcModel.rb:120-122 | the counter goes up by one and the new value is returned |
| IfcRegistry.IfcModel.Add | src/bt_ifcmanager/lib/lib_ifc/IfcModel.rb:105-108 | the object is appended, earlier objects stay, and its id is the new length, one more than the last id |
| IfcRegistry.IfcModel.RegisterAll | src/bt_ifcmanager/lib/lib_ifc/IfcModel.rb:105-108 | registering objects one after another appends them in order with consecutive ids |
| IfcRegistry.IfcModel.AddMappedRepresentation | src/bt_ifcmanager/lib/lib_ifc/IfcModel.rb:111-113 | the definition now maps to the object and every other definition's entry is unchanged |
| IfcRegistry.IfcModel.MappedRepresentation | src/bt_ifcmanager/lib/lib_ifc/IfcModel.rb:116-118 | a representation is found exactly when one was added for the definition |
| IfcRegistry.IfcModel.SummaryAdd | src/bt_ifcmanager/lib/lib_ifc/IfcModel.rb:132-138 | the summary becomes `SummaryStep` of the old summary |
| IfcRegistry.IfcModel.CreateOwnerHistory | src/bt_ifcmanager/lib/lib_ifc/IfcModel.rb:146-161 | registers owner history, person and organisation, person, organisation and application in that order and returns the first id |
| IfcRegistry.IfcModel.CreateProject | src/bt_ifcmanager/lib/lib_ifc/IfcModel.rb:141-143 | registers one IfcProject and returns its id |
| IfcRegistry.IfcModel.CreateRepresentationContext | src/bt_ifcmanager/lib/lib_ifc/IfcModel.rb:164-172 | registers context, axis placement, origin point and true north in that order and returns the first id |
| IfcRegistry.IfcModel.DefaultRelatedObject | src/bt_ifcmanager/lib/lib_ifc/IfcModel.rb:207-209 | the child at a level of the chain has the class of that level; an existing child is returned with nothing created, and a missing one is registered once and remembered |
| IfcRegistry.IfcModel.DefaultStorey | src/bt_ifcmanager/lib/lib_ifc/IfcModel.rb:207-209 | the state becomes the completed chain of the old state and the storey is its third link |
| IfcRegistry.IfcModel.AddContainedElement | src/bt_ifcmanager/lib/lib_ifc/IfcModel.rb:211 | the element is appended to what the structure contains; other structures are unchanged |
| IfcRegistry.IfcModel.DispatchEntity | src/bt_ifcmanager/lib/lib_ifc/IfcModel.rb:182-193 | a face is reported exactly when it is picked; the ObjectCreator's objects are registered exactly for a picked group or component instance |
| IfcRegistry.IfcModel.DispatchEntities | src/bt_ifcmanager/lib/lib_ifc/IfcModel.rb:177-195 | the faces collected are the selected faces in model order, and the objects registered are the ObjectCreator's for the selected groups and instances in model order |
| IfcRegistry.IfcModel.CreateDefaultElement | src/bt_ifcmanager/lib/lib_ifc/IfcModel.rb:198-212 | the state becomes `WithDefaultElement` of the old state and the proxy's id is the next id |
| IfcRegistry.IfcModel.CreateIfcObjects | src/bt_ifcmanager/lib/lib_ifc/IfcModel.rb:175-215 | the state becomes `CreateObjects` of the old state with the project as parent, and the registered objects are returned |
| IfcReal.CollapseLine | src/bt_ifcmanager/lib/lib_ifc/IfcReal.rb:36 | the replacement on one line yields a prefix of the line; `CollapseLineSpec` states exactly when it cuts |
| IfcReal.CollapseLines | src/bt_ifcmanager/lib/lib_ifc/IfcReal.rb:36 | definition: the one-line replacement at the end of every line, as Ruby's `$` matches before each newline; `CollapseLinesShape` and `CollapseLinesIdempotent` state what it keeps |
| IfcReal.Canonical | src/bt_ifcmanager/lib/lib_ifc/IfcReal.rb:36 | definition: the text upper-cased, then the replacement on every line; `CanonicalUpperCase`, `CanonicalNotLonger`, `CanonicalIdempotent` and `FloatTextToStepReal` state what it means |
| IfcReal.Step | src/bt_ifcmanager/lib/lib_ifc/IfcReal.rb:35-41 | without `@long` the result is the canonical text of the input, and with `@long` it is `add_long` of that text; without `@long` the result has no lower-case letter, is never longer than the text, and is unchanged by a second canonicalisation; for one line of text it is a prefix of the upper-cased text |
| IfcReal.CollapseLineSpec | src/bt_ifcmanager/lib/lib_ifc/IfcReal.rb:36 | a line ending in a period and one or more zeros is cut back to the period; any other line is unchanged |
| IfcReal.CollapseLineIdempotent | src/bt_ifcmanager/lib/lib_ifc/IfcReal.rb:36 | the replacement on a line is idempotent |
| IfcReal.CanonicalOneLine | src/bt_ifcmanager/lib/lib_ifc/IfcReal.rb:36 | for text with no newline the result is the upper-cased text, cut after the period exactly when a period and zeros end it, and it keeps every period |
| IfcReal.CollapseLinesShape | src/bt_ifcmanager/lib/lib_ifc/IfcReal.rb:36 | the line-by-line replacement never lengthens the text and adds no lower-case letter |
| IfcReal.CollapseLinesIdempotent | src/bt_ifcmanager/lib/lib_ifc/IfcReal.rb:36 | the line-by-line replacement is idempotent |
| IfcReal.CanonicalUpperCase | src/bt_ifcmanager/lib/lib_ifc/IfcReal.rb:36 | the canonical text has no lower-case letter |
| IfcReal.CanonicalNotLonger | src/bt_ifcmanager/lib/lib_ifc/IfcReal.rb:36 | the canonical text is never longer than the input |
| IfcReal.CanonicalIdempotent | src/bt_ifcmanager/lib/lib_ifc/IfcReal.rb:36 | canonicalising twice is canonicalising once |
| IfcReal.UpcaseRender | src/bt_ifcmanager/lib/lib_ifc/IfcReal.rb:36 | upper-casing the text of a float only turns the exponent marker `e` into `E` |
| IfcReal.ExponentTextKept | src/bt_ifcmanager/lib/lib_ifc/IfcReal.rb:36 | a float text with an exponent is only upper-cased |
| IfcReal.ZeroFractionCut | src/bt_ifcmanager/lib/lib_ifc/IfcReal.rb:36 | a fraction of only zeros with no exponent is cut back to the period |
| IfcReal.FractionKept | src/bt_ifcmanager/lib/lib_ifc/IfcReal.rb:36 | a fraction with a digit other than zero is kept |
| IfcReal.FloatTextToStepReal | src/bt_ifcmanager/lib/lib_ifc/IfcReal.rb:35-41 | the canonical text of a finite float's text is a valid STEP REAL token: the same digits, with an all-zero fraction dropped when there is no exponent, and `E` for `e` |
| IfcReal.OneExample | src/bt_ifcmanager/lib/lib_ifc/IfcReal.rb:36 | "1.0" becomes "1." |
| IfcReal.HundredExample | src/bt_ifcmanager/lib/lib_ifc/IfcReal.rb:36 | "100.0" becomes "100." |
| IfcReal.FractionExample | src/bt_ifcmanager/lib/lib_ifc/IfcReal.rb:36 | "1.5" stays "1.5" |
| IfcReal.ExponentExample | src/bt_ifcmanager/lib/lib_ifc/IfcReal.rb:36 | "1.0e-05" becomes "1.0E-05" |
| LayerVisibility.LayerVisible | src/bt_ifcmanager/lib/layer_visibility.rb:26-40 | a hidden layer is never visible; before version 2100000000 the layer's own flag decides; a layer outside any folder is visible exactly when its flag is set |
| LayerVisibility.LayerVisibleAllFolders | src/bt_ifcmanager/lib/layer_visibility.rb:26-40 | from version 2100000000 on, a layer is visible exactly when it and every folder enclosing it are visible |
| LayerVisibility.AllVisibleUnfold | src/bt_ifcmanager/lib/layer_visibility.rb:31-32 | a layer's chain is all visible exactly when the layer is visible and its folder's chain is all visible |

## Left out

- The IFC entity classes and their attributes are not part of this model. Each `X.new(self)` in the registry's methods is modelled as registering one object of class X. The objects an entity constructor may register internally are not modelled, and neither is any attribute value (names, labels, placements, the `Time.now` creation date, the application version), apart from the default element's name and the faces of its brep (IfcModel.rb:200-202).
- IfcRegistry.Creator: the ObjectCreator is not part of this model. It is taken to be stateless and to register objects only: a function parameter giving the objects it registers for one top-level group or component instance. Although `initialize` hands it the registry itself (IfcModel.rb:189), the model gives it no way to call `summary_add`, to read or fill the mapped-representation cache, to create or use the default chain or to add contained elements, and its objects cannot depend on what earlier entities registered. So the export summary and the mapped-representation cache stay as the registry's own code leaves them (empty), and `CreatedConcat` and `CreateObjectsOutcome` hold for such a creator only. The transformation and the parent hash it receives are not modelled either.
- IfcRegistry.IfcModel.DefaultRelatedObject: `get_default_related_object` and `add_contained_element` belong to the spatial structures, whose code is not part of this model; they are modelled by what the registry relies on. The first request for a default level registers exactly one object, of that level's class (site, building, storey), and remembers it; later requests register nothing. `add_contained_element` (IfcRegistry.IfcModel.AddContainedElement) only records the element's id under the structure and registers nothing. Any aggregation or containment relationship objects and any placements the real methods create are not modelled, so the ids in `DefaultElementFresh`, `DefaultElementPlaced` and the constructor's state are ids under this abstraction. Only the chain below the project is modelled, because that is the only chain the registry's own code uses.
- `@project.representationcontexts`, an `Ifc_Set` of the context (IfcModel.rb:98), is left out. It registers nothing.
- `@su_model`, the materials, layers and classifications collections and their accessors are left out: the core code only initialises them.
- The `is_a? Sketchup::Model` check (IfcModel.rb:176) is left out. The model is always given as its top-level entities.
- `export` and IfcStepWriter (writing the file) are left out: file I/O.
- Which code calls `summary_add`, `add_mapped_representation` and `mapped_representation?` is not part of this model. They are modelled on their own.
- `Sketchup.version_number` is a parameter (`version`). The SketchUp API objects are plain data.
- IfcReal.Step: the input is the decimal text `Float#to_s` prints for the value, not the float. `Float#to_s` itself and non-finite floats (NaN, Infinity) are not modelled. The `add_long` conversion comes from Ifc_Type.rb, which is not part of this model, so it is a function parameter. Upper-casing is modelled for ASCII letters only, which is all `Float#to_s` prints.
- IfcReal's constructor (`value.to_f` with its rescue) is not modelled: it converts to a float and prints errors.
- IfcRegistry.RegistryValid: the invariant does not state that contained ids are registered ids. The containment map is kept exactly, but no such invariant is proved about it.
