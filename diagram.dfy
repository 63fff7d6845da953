/**
 * The diagram (scripts/diagram.js) and its components (scripts/component.js, with the identity
 * part of scripts/item.js). In the source the diagram is a class with static fields only, a
 * process-wide singleton; here it is an object that each component holds a reference to.
 * `Item` is abstract and `Component` is its only subclass, so the identity an item carries
 * (type tag, id, element id, registration, `remove`, `toJSON`) lives in `Component`; the
 * registry holds components.
 */
module DiagramModel {
  import opened Wrappers
  import opened Global
  import opened Snap
  import opened Ids
  import opened Shapes
  import opened Identity

  /** `Diagram.gridTypes`. */
  const Lines: string := "lines"
  const Dots: string := "dots"
  const GridTypes: set<string> := {Lines, Dots}

  /** The type tag of every component: the class name `Component` with its first letter lowered. */
  const ComponentType: string := TypeTag("Component")

  /** The `properties` part of `Diagram.toJSON()`: the stored (unsnapped) settings. */
  datatype Properties = Properties(
    width: int,
    height: int,
    borderRadius: int,
    showGrid: bool,
    gridSpacing: int,
    gridMajor: int,
    gridType: string,
    snapToGrid: bool,
    snapToAngle: bool,
    snapAngle: int)

  /** The ranges the setters keep the settings in; the initial settings lie in them too. */
  ghost predicate InRange(p: Properties) {
    && 100 <= p.width <= 10000
    && 100 <= p.height <= 10000
    && 0 <= p.borderRadius <= 10000
    && 5 <= p.gridSpacing <= 99999
    && (p.gridMajor == 0 || 1 <= p.gridMajor <= 99999)
    && p.gridType in GridTypes
    && 5 <= p.snapAngle <= 90
  }

  /** `Component.toJSON()`: the item record plus the raw, unsnapped geometry. */
  datatype ComponentRecord = ComponentRecord(itemType: string, id: string, width: int, height: int, x: int, y: int)

  /** `Diagram.toJSON()`: the settings and one record per registered item, keyed by id. */
  datatype DiagramRecord = DiagramRecord(properties: Properties, items: map<string, ComponentRecord>)

  /** The by-type view of the registry: type tag to (id to item). */
  type Buckets = map<string, map<string, Component>>

  /** The bucket of a type, empty when the type has none yet. */
  function Bucket(byType: Buckets, t: string): map<string, Component> {
    if t in byType then byType[t] else map[]
  }

  /** The by-type view after `addItem(item)`: the bucket is created when missing and the item filed under its id. */
  function AddToBuckets(byType: Buckets, item: Component): (r: Buckets)
    ensures r.Keys == byType.Keys + {item.itemType}
    ensures r[item.itemType] == Bucket(byType, item.itemType)[item.id := item]
    ensures forall t :: t in byType && t != item.itemType ==> r[t] == byType[t]
  {
    byType[item.itemType := Bucket(byType, item.itemType)[item.id := item]]
  }

  /** The by-type view after `removeItem(item)`, whose type bucket exists: the id is gone from that bucket. */
  function RemoveFromBuckets(byType: Buckets, item: Component): (r: Buckets)
    requires item.itemType in byType
    ensures r.Keys == byType.Keys
    ensures r[item.itemType].Keys == byType[item.itemType].Keys - {item.id}
    ensures forall k :: k in r[item.itemType] ==> r[item.itemType][k] == byType[item.itemType][k]
    ensures forall t :: t in byType && t != item.itemType ==> r[t] == byType[t]
  {
    byType[item.itemType := byType[item.itemType] - {item.id}]
  }

  /** Every item is stored under its own id. */
  ghost predicate KeysMatch(items: map<string, Component>) {
    forall k :: k in items ==> items[k].id == k
  }

  /** Every bucket entry is stored under its own id, in the bucket of its own type. */
  ghost predicate BucketsMatch(byType: Buckets) {
    forall t, k :: t in byType && k in byType[t] ==> byType[t][k].id == k && byType[t][k].itemType == t
  }

  /** Every item of the by-id view is also in the bucket of its type. */
  ghost predicate Listed(items: map<string, Component>, byType: Buckets) {
    forall k :: k in items ==>
      items[k].itemType in byType && k in byType[items[k].itemType] && byType[items[k].itemType][k] == items[k]
  }

  /** Every bucket entry is also in the by-id view, as the same item. */
  ghost predicate Registered(items: map<string, Component>, byType: Buckets) {
    forall t, k :: t in byType && k in byType[t] ==> k in items && items[k] == byType[t][k]
  }

  /** The two views of the registry agree, in both directions. */
  ghost predicate Coherent(items: map<string, Component>, byType: Buckets) {
    KeysMatch(items) && BucketsMatch(byType) && Listed(items, byType) && Registered(items, byType)
  }

  /** Adding an item keeps the two views in agreement. */
  lemma AddKeepsCoherent(items: map<string, Component>, byType: Buckets, item: Component)
    requires Coherent(items, byType)
    ensures Coherent(items[item.id := item], AddToBuckets(byType, item))
  {
  }

  /** Removing an item whose bucket exists keeps the two views in agreement. */
  lemma RemoveKeepsCoherent(items: map<string, Component>, byType: Buckets, item: Component)
    requires Coherent(items, byType) && item.itemType in byType
    ensures Coherent(items - {item.id}, RemoveFromBuckets(byType, item))
  {
  }

  /** Removing an item right after adding one with a fresh id restores both views exactly. */
  lemma AddThenRemove(items: map<string, Component>, byType: Buckets, item: Component)
    requires item.id !in items && item.id !in Bucket(byType, item.itemType)
    ensures items[item.id := item] - {item.id} == items
    ensures item.itemType in byType ==> RemoveFromBuckets(AddToBuckets(byType, item), item) == byType
    ensures item.itemType !in byType ==>
      RemoveFromBuckets(AddToBuckets(byType, item), item) == byType[item.itemType := map[]]
  {
    var bucket := Bucket(byType, item.itemType);
    assert bucket[item.id := item] - {item.id} == bucket;
  }

  /**
   * `addItem(item)` as written: line 283 stores the item by id, then line 285 reads the
   * undeclared name `type`, which throws a ReferenceError; the by-type view is left as it was.
   */
  function AddItemAsWritten(items: map<string, Component>, byType: Buckets, item: Component)
    : (r: (map<string, Component>, Buckets, Result<Component, Thrown>))
    ensures r.0 == items[item.id := item] && r.1 == byType
    ensures r.2 == Failure(ReferenceError)
  {
    (items[item.id := item], byType, Failure(ReferenceError))
  }

  /** As written, adding an item not yet in its bucket leaves the two views disagreeing, and the call throws. */
  lemma AddItemAsWrittenBreaksRegistry(items: map<string, Component>, byType: Buckets, item: Component)
    requires item.id !in Bucket(byType, item.itemType)
    ensures var r := AddItemAsWritten(items, byType, item);
      !Listed(r.0, r.1) && r.2.Failure?
  {
    var r := AddItemAsWritten(items, byType, item);
    assert r.0[item.id] == item;
  }

  /**
   * A fresh diagram (800 by 800, grid of 10) whose height is set to 200 and border radius to 300:
   * as written the maximum border radius stays at 400, half the width, and the radius reads as
   * 300; as intended the maximum is 100, half the height, and the radius reads as 100.
   */
  method TallRadiusScenario() returns (maxAsWritten: int, maxIntended: int, radiusAsWritten: int, radiusIntended: int)
    ensures maxAsWritten == 400 && maxIntended == 100
    ensures radiusAsWritten == 300 && radiusIntended == 100
  {
    var d := new Diagram();
    d.SetHeight(200);
    d.SetBorderRadius(300);
    RoundOfMultiple(800, 10);
    RoundOfMultiple(200, 10);
    maxAsWritten := d.MaxBorderRadiusAsWritten();
    maxIntended := d.MaxBorderRadius();
    radiusAsWritten := d.BorderRadiusAsWritten();
    radiusIntended := d.BorderRadius();
  }

  /**
   * Setting the snap angle of a fresh diagram to 45: as written the value is stored and the call
   * throws; as intended the same value is stored and the call returns normally.
   */
  method SnapAngleScenario() returns (asWritten: Result<(), Thrown>, storedAsWritten: int, storedIntended: int)
    ensures asWritten == Failure(TypeError)
    ensures storedAsWritten == 45 && storedIntended == 45
  {
    var d := new Diagram();
    asWritten := d.SetSnapAngleAsWritten(45);
    storedAsWritten := d.snapAngle;
    var e := new Diagram();
    e.SetSnapAngle(45);
    storedIntended := e.snapAngle;
  }

  /** The smaller of two numbers (`Math.min`). */
  function Min(a: int, b: int): int {
    if a <= b then a else b
  }

  class Diagram {
    var width: int
    var height: int
    var borderRadius: int
    var showGrid: bool
    var gridSpacing: int
    var gridMajor: int
    var gridType: string
    var snapToGrid: bool
    var items: map<string, Component>
    var itemsByType: Buckets
    var edit: bool
    var selectedItem: Component?
    var snapToAngle: bool
    var snapAngle: int

    /** The stored settings, as `toJSON` reports them. */
    function Settings(): Properties
      reads this
    {
      Properties(width, height, borderRadius, showGrid, gridSpacing, gridMajor, gridType, snapToGrid, snapToAngle, snapAngle)
    }

    /** Settings in range and a coherent registry. */
    ghost predicate Valid()
      reads this
    {
      InRange(Settings()) && Coherent(items, itemsByType)
    }

    /** The initial values of the static fields. */
    constructor ()
      ensures Valid()
      ensures Settings() == Properties(800, 800, 5, true, 10, 5, Lines, true, true, 5)
      ensures items == map[] && itemsByType == map[]
      ensures edit && selectedItem == null
    {
      width, height, borderRadius := 800, 800, 5;
      showGrid, gridSpacing, gridMajor, gridType := true, 10, 5, Lines;
      snapToGrid, items, itemsByType := true, map[], map[];
      edit, selectedItem := true, null;
      snapToAngle, snapAngle := true, 5;
    }

    /** The `width` getter: the stored width snapped to the grid. */
    function Width(): (r: int)
      reads this
      ensures !snapToGrid ==> r == width
      ensures snapToGrid && gridSpacing > 0 ==> IsMultiple(r, gridSpacing) && -gridSpacing <= 2 * (width - r) < gridSpacing
    {
      GridSnap(snapToGrid, gridSpacing, width)
    }

    /** The `height` getter: the stored height snapped to the grid. */
    function Height(): (r: int)
      reads this
      ensures !snapToGrid ==> r == height
      ensures snapToGrid && gridSpacing > 0 ==> IsMultiple(r, gridSpacing) && -gridSpacing <= 2 * (height - r) < gridSpacing
    {
      GridSnap(snapToGrid, gridSpacing, height)
    }

    /** The `width` setter: clamps into [100, 10000]. */
    method SetWidth(value: int)
      requires Valid()
      modifies this`width
      ensures Valid()
      ensures width == Clamp(Some(value), 10000, Some(100)).value
      ensures 100 <= value <= 10000 ==> width == value
      ensures value < 100 ==> width == 100
      ensures value > 10000 ==> width == 10000
    {
      width := Clamp(Some(value), 10000, Some(100)).value;
    }

    /** The `height` setter: clamps into [100, 10000]. */
    method SetHeight(value: int)
      requires Valid()
      modifies this`height
      ensures Valid()
      ensures height == Clamp(Some(value), 10000, Some(100)).value
      ensures 100 <= value <= 10000 ==> height == value
      ensures value < 100 ==> height == 100
      ensures value > 10000 ==> height == 10000
    {
      height := Clamp(Some(value), 10000, Some(100)).value;
    }

    /** `maxBorderRadius` as written: `Math.min(width, width) / 2`, which ignores the height. */
    function MaxBorderRadiusAsWritten(): (r: int)
      reads this
      requires Valid()
      ensures 0 <= r && 2 * r <= Width() < 2 * r + 2
    {
      Min(Width(), Width()) / 2
    }

    /**
     * As written, a canvas at least two units wider than it is tall allows a radius of more than
     * half its height, above the intended maximum.
     */
    lemma MaxBorderRadiusAsWrittenIgnoresHeight()
      requires Valid() && Width() >= Height() + 2
      ensures 2 * MaxBorderRadiusAsWritten() > Height()
      ensures MaxBorderRadiusAsWritten() > MaxBorderRadius()
    {
    }

    /** `maxBorderRadius` as intended: half the smaller side of the (snapped) canvas. */
    function MaxBorderRadius(): (r: int)
      reads this
      requires Valid()
      ensures 0 <= r && 2 * r <= Width() && 2 * r <= Height()
      ensures 2 * r + 1 >= Width() || 2 * r + 1 >= Height()
    {
      Min(Width(), Height()) / 2
    }

    /** The `borderRadius` getter: the stored radius clamped into [0, maxBorderRadius]. */
    function BorderRadius(): (r: int)
      reads this
      requires Valid()
      ensures 0 <= r <= MaxBorderRadius()
      ensures borderRadius <= MaxBorderRadius() ==> r == borderRadius
      ensures borderRadius >= MaxBorderRadius() ==> r == MaxBorderRadius()
    {
      Clamp(Some(borderRadius), MaxBorderRadius(), None).value
    }

    /**
     * The `borderRadius` getter as written: the stored radius clamped into [0, maxBorderRadius]
     * with the maximum as written, half the width.
     */
    function BorderRadiusAsWritten(): (r: int)
      reads this
      requires Valid()
      ensures 0 <= r <= MaxBorderRadiusAsWritten()
      ensures borderRadius <= MaxBorderRadiusAsWritten() ==> r == borderRadius
      ensures borderRadius >= MaxBorderRadiusAsWritten() ==> r == MaxBorderRadiusAsWritten()
    {
      Clamp(Some(borderRadius), MaxBorderRadiusAsWritten(), None).value
    }

    /** The `borderRadius` setter: clamps into [0, 10000]; the canvas size is applied when the radius is read. */
    method SetBorderRadius(value: int)
      requires Valid()
      modifies this`borderRadius
      ensures Valid()
      ensures borderRadius == Clamp(Some(value), 10000, None).value
      ensures 0 <= value <= 10000 ==> borderRadius == value
      ensures value < 0 ==> borderRadius == 0
    {
      borderRadius := Clamp(Some(value), 10000, None).value;
    }

    /** The `showGrid` setter (showing or hiding the grid element is left to the view). */
    method SetShowGrid(value: bool)
      modifies this`showGrid
      ensures showGrid == value
    {
      showGrid := value;
    }

    /** `toggleGrid()`. */
    method ToggleGrid()
      modifies this`showGrid
      ensures showGrid == !old(showGrid)
    {
      showGrid := !showGrid;
    }

    /** The `gridSpacing` setter: clamps into [5, 99999]. */
    method SetGridSpacing(value: int)
      requires Valid()
      modifies this`gridSpacing
      ensures Valid()
      ensures gridSpacing == Clamp(Some(value), 99999, Some(5)).value
      ensures 5 <= value <= 99999 ==> gridSpacing == value
    {
      gridSpacing := Clamp(Some(value), 99999, Some(5)).value;
    }

    /** The `gridMajor` setter: 0 (no major lines) for a value of at most 0, otherwise clamped into [1, 99999]. */
    method SetGridMajor(value: int)
      requires Valid()
      modifies this`gridMajor
      ensures Valid()
      ensures gridMajor == if value <= 0 then 0 else Clamp(Some(value), 99999, Some(1)).value
      ensures gridMajor == 0 <==> value <= 0
      ensures 1 <= value <= 99999 ==> gridMajor == value
    {
      gridMajor := if value <= 0 then 0 else Clamp(Some(value), 99999, Some(1)).value;
    }

    /** The `gridType` setter: a known grid type is stored, anything else falls back to "lines". */
    method SetGridType(value: string)
      requires Valid()
      modifies this`gridType
      ensures Valid()
      ensures value in GridTypes ==> gridType == value
      ensures value !in GridTypes ==> gridType == Lines
    {
      if value in GridTypes {
        gridType := value;
      } else {
        gridType := Lines;
      }
    }

    /** The `snapToGrid` setter. */
    method SetSnapToGrid(value: bool)
      modifies this`snapToGrid
      ensures snapToGrid == value
    {
      snapToGrid := value;
    }

    /**
     * The `snapToAngle` setter as written: the flag is stored, then line 194 calls
     * `Diagram.drawItems`, which the class does not define, so the call throws a TypeError.
     */
    method SetSnapToAngleAsWritten(value: bool) returns (r: Result<(), Thrown>)
      modifies this`snapToAngle
      ensures snapToAngle == value
      ensures r == Failure(TypeError)
    {
      snapToAngle := value;
      r := Failure(TypeError);
    }

    /** The `snapToAngle` setter as intended: the flag is stored and the redraw is a no-op. */
    method SetSnapToAngle(value: bool)
      modifies this`snapToAngle
      ensures snapToAngle == value
    {
      snapToAngle := value;
    }

    /**
     * The `snapAngle` setter as written: the clamped value is stored, then line 207 calls the
     * undefined `Diagram.drawItems`, so the call throws a TypeError. The invariant still holds.
     */
    method SetSnapAngleAsWritten(value: int) returns (r: Result<(), Thrown>)
      requires Valid()
      modifies this`snapAngle
      ensures Valid()
      ensures snapAngle == Clamp(Some(value), 90, Some(5)).value
      ensures r == Failure(TypeError)
    {
      SetSnapAngle(value);
      r := Failure(TypeError);
    }

    /** The `snapAngle` setter as intended: clamps into [5, 90] and returns normally (the redraw is a no-op). */
    method SetSnapAngle(value: int)
      requires Valid()
      modifies this`snapAngle
      ensures Valid()
      ensures snapAngle == Clamp(Some(value), 90, Some(5)).value
      ensures 5 <= value <= 90 ==> snapAngle == value
    {
      snapAngle := Clamp(Some(value), 90, Some(5)).value;
    }

    /** The `selectedItem` setter: a null item leaves the selection as it was. */
    method SetSelectedItem(item: Component?)
      modifies this`selectedItem
      ensures selectedItem == if item != null then item else old(selectedItem)
    {
      if item != null {
        selectedItem := item;
      }
    }

    /** The `edit` setter (showing the options panel is left to the view). */
    method SetEdit(value: bool)
      modifies this`edit
      ensures edit == value
    {
      edit := value;
    }

    /** `gridSnap(value)` under the current settings. */
    function GridSnapValue(value: int): (r: int)
      reads this
      ensures !snapToGrid ==> r == value
      ensures snapToGrid && gridSpacing > 0 ==> IsMultiple(r, gridSpacing) && -gridSpacing <= 2 * (value - r) < gridSpacing
      ensures GridSnap(snapToGrid, gridSpacing, r) == r
    {
      GridSnapIdempotent(snapToGrid, gridSpacing, value);
      GridSnap(snapToGrid, gridSpacing, value)
    }

    /** `angleSnap(value)` under the current settings, as intended (see `AngleSnapAsWritten`). */
    function AngleSnapValue(value: int): (r: int)
      reads this
      requires Valid()
      ensures !snapToAngle ==> r == value
      ensures snapToAngle ==> IsMultiple(r, snapAngle) && -snapAngle <= 2 * (value - r) < snapAngle
    {
      AngleSnap(snapToAngle, snapAngle, value)
    }

    /**
     * `addItem(item)` with line 285 reading `item.type`: files the item under its id in both
     * views, creating its type bucket when missing, and returns it.
     */
    method AddItem(item: Component) returns (r: Component)
      requires Valid()
      modifies this`items, this`itemsByType
      ensures Valid()
      ensures r == item
      ensures items == old(items)[item.id := item]
      ensures itemsByType == AddToBuckets(old(itemsByType), item)
    {
      AddKeepsCoherent(items, itemsByType, item);
      items := items[item.id := item];
      itemsByType := AddToBuckets(itemsByType, item);
      r := item;
    }

    /**
     * `removeItem(item)`: deletes the id from the by-id view, then from the item's type bucket;
     * when that bucket does not exist, the second delete throws a TypeError.
     */
    method RemoveItem(item: Component) returns (r: Result<Component, Thrown>)
      requires Valid()
      modifies this`items, this`itemsByType
      ensures Valid()
      ensures items == old(items) - {item.id}
      ensures item.itemType in old(itemsByType) ==>
        r == Success(item) && itemsByType == RemoveFromBuckets(old(itemsByType), item)
      ensures item.itemType !in old(itemsByType) ==> r == Failure(TypeError) && itemsByType == old(itemsByType)
    {
      items := items - {item.id};
      if item.itemType in itemsByType {
        RemoveKeepsCoherent(old(items), itemsByType, item);
        itemsByType := RemoveFromBuckets(itemsByType, item);
        r := Success(item);
      } else {
        r := Failure(TypeError);
      }
    }

    /** `getItem(id)`: the item registered under `id`, `None` (undefined) when there is none. */
    function GetItem(id: string): (r: Option<Component>)
      reads this
      requires Valid()
      ensures r.Some? <==> id in items
      ensures r.Some? ==> r.value.id == id && r.value.itemType in itemsByType
      ensures r.Some? ==> id in itemsByType[r.value.itemType] && itemsByType[r.value.itemType][id] == r.value
    {
      if id in items then Some(items[id]) else None
    }

    /** `getAllItems()`: every registered item (in no particular order). */
    function GetAllItems(): (r: set<Component>)
      reads this
      requires Valid()
      ensures forall c :: c in r ==> c.id in items && items[c.id] == c
      ensures forall k :: k in items ==> items[k] in r
    {
      items.Values
    }

    /** `getAllItemsByType(t)`: the items of bucket `t`; a missing bucket makes `Object.values` throw a TypeError. */
    function GetAllItemsByType(t: string): (r: Result<set<Component>, Thrown>)
      reads this
      requires Valid()
      ensures r.Success? <==> t in itemsByType
      ensures r.Failure? ==> r.error == TypeError
      ensures r.Success? ==> forall c :: c in r.value ==> c.itemType == t && c.id in itemsByType[t]
      ensures r.Success? ==> forall c :: c in r.value ==> c.id in items && items[c.id] == c
      ensures r.Success? ==> forall k :: k in items && items[k].itemType == t ==> items[k] in r.value
    {
      if t in itemsByType then Success(itemsByType[t].Values) else Failure(TypeError)
    }

    /**
     * `generateUniqueId()`: nine base-36 digits that are not the id of a registered item. The
     * source draws random numbers until one is free; here the successful draw is chosen outright.
     * With 36^9 ids registered no draw succeeds and the source loops forever, hence the requirement.
     */
    method GenerateUniqueId() returns (id: string)
      requires |items| < IdSpace
      ensures IsGeneratedId(id) && id !in items
      ensures exists n: nat :: n < IdSpace && id == Encode(n, IdLength)
    {
      FreeIdBelow(items.Keys, IdSpace);
      var n: nat :| n < IdSpace && Encode(n, IdLength) !in items.Keys;
      id := Encode(n, IdLength);
    }

    /** `toJSON()`: the raw settings and the record of every registered item. */
    function ToJSON(): (r: DiagramRecord)
      reads this, items.Values
      requires Valid()
      ensures r.properties == Settings() && InRange(r.properties)
      ensures r.items.Keys == items.Keys
      ensures forall k :: k in r.items ==> r.items[k].id == k && r.items[k].itemType == ComponentType
      ensures forall k :: k in r.items ==>
        r.items[k].width == items[k].width && r.items[k].height == items[k].height &&
        r.items[k].x == items[k].x && r.items[k].y == items[k].y
    {
      DiagramRecord(Settings(), map k | k in items :: items[k].ToJSON())
    }
  }

  class Component {
    const diagram: Diagram
    const itemType: string := ComponentType
    const id: string
    const elementId: string
    var width: int
    var height: int
    var x: int
    var y: int
    var shape: string
    var angle: int
    var flipped: bool
    var inverted: bool
    var turned: bool

    /** The shape is always a catalog name. */
    ghost predicate Valid()
      reads this
    {
      shape in Catalog
    }

    /**
     * `new Component(id, width, height, shape, angle, flipped, inverted, turned)`. JavaScript's
     * `||` defaults are modelled on the values: an empty id, a width or height of 0 and an empty
     * shape mean "not given". The `Item` part comes first: the type tag, the given or a generated
     * id, the element id, and registration in the diagram. Then the setters run in source order,
     * so width and height are clamped against the default shape's minimums, and each flag is
     * stored only when the final shape permits it. `x` and `y` are never assigned and start at 0.
     */
    constructor (d: Diagram, id: string, width: int, height: int, shape: string, angle: int,
                 flipped: bool, inverted: bool, turned: bool)
      requires d.Valid()
      requires id == "" ==> |d.items| < IdSpace
      modifies d`items, d`itemsByType
      ensures Valid() && d.Valid() && diagram == d
      ensures id != "" ==> this.id == id
      ensures id == "" ==> IsGeneratedId(this.id) && this.id !in old(d.items)
      ensures elementId == ElementId(itemType, this.id)
      ensures d.items == old(d.items)[this.id := this]
      ensures d.itemsByType == AddToBuckets(old(d.itemsByType), this)
      ensures this.width == Clamp(Some(if width == 0 then 50 else width), d.Width(), Some(Catalog[DefaultShape].minWidth)).value
      ensures this.height == Clamp(Some(if height == 0 then 50 else height), d.Height(), Some(Catalog[DefaultShape].minHeight)).value
      ensures x == 0 && y == 0
      ensures this.shape == if shape in Catalog then shape else DefaultShape
      ensures this.angle == angle
      ensures this.flipped == (Catalog[this.shape].canFlip && flipped)
      ensures this.inverted == (Catalog[this.shape].canInvert && inverted)
      ensures this.turned == (Catalog[this.shape].canTurn && turned)
    {
      diagram := d;
      var newId := id;
      if id == "" {
        newId := d.GenerateUniqueId();
      }
      this.id := newId;
      elementId := ElementId(ComponentType, newId);
      this.width, this.height, x, y := 0, 0, 0, 0;
      this.shape, this.angle := DefaultShape, 0;
      this.flipped, this.inverted, this.turned := false, false, false;
      new;
      var _ := d.AddItem(this);
      Configure(width, height, shape, angle, flipped, inverted, turned);
    }

    /** The setter calls of the constructor, in source order, on a component still at its defaults. */
    method Configure(width: int, height: int, shape: string, angle: int, flipped: bool, inverted: bool, turned: bool)
      requires Valid() && this.shape == DefaultShape && !this.flipped && !this.inverted && !this.turned
      modifies this`width, this`height, this`shape, this`angle, this`flipped, this`inverted, this`turned
      ensures Valid()
      ensures this.width == Clamp(Some(if width == 0 then 50 else width), diagram.Width(), Some(Catalog[DefaultShape].minWidth)).value
      ensures this.height == Clamp(Some(if height == 0 then 50 else height), diagram.Height(), Some(Catalog[DefaultShape].minHeight)).value
      ensures this.shape == if shape in Catalog then shape else DefaultShape
      ensures this.angle == angle
      ensures this.flipped == (Catalog[this.shape].canFlip && flipped)
      ensures this.inverted == (Catalog[this.shape].canInvert && inverted)
      ensures this.turned == (Catalog[this.shape].canTurn && turned)
    {
      SetWidth(if width == 0 then 50 else width);
      SetHeight(if height == 0 then 50 else height);
      if shape != "" {
        SetShape(shape);
      }
      SetAngle(angle);
      SetFlipped(flipped);
      SetInverted(inverted);
      SetTurned(turned);
    }

    /** The catalog entry of the current shape. */
    function Definition(): (r: ShapeDefinition)
      reads this
      requires Valid()
      ensures r == Catalog[shape] && r.name == shape
    {
      Lookup(shape).value
    }

    /** The `minWidth` getter. */
    function MinWidth(): (r: int)
      reads this
      requires Valid()
      ensures 0 < r <= Catalog[shape].defaultWidth
      ensures r == 50
    {
      CatalogConsistent();
      Definition().minWidth
    }

    /** The `minHeight` getter. */
    function MinHeight(): (r: int)
      reads this
      requires Valid()
      ensures 0 < r <= Catalog[shape].defaultHeight
      ensures r == 20
    {
      CatalogConsistent();
      Definition().minHeight
    }

    /** The `width` getter: the stored width snapped to the grid. */
    function Width(): (r: int)
      reads this, diagram
      ensures !diagram.snapToGrid ==> r == width
      ensures diagram.snapToGrid && diagram.gridSpacing > 0 ==>
        IsMultiple(r, diagram.gridSpacing) && -diagram.gridSpacing <= 2 * (width - r) < diagram.gridSpacing
    {
      diagram.GridSnapValue(width)
    }

    /** The `height` getter: the stored height snapped to the grid. */
    function Height(): (r: int)
      reads this, diagram
      ensures !diagram.snapToGrid ==> r == height
      ensures diagram.snapToGrid && diagram.gridSpacing > 0 ==>
        IsMultiple(r, diagram.gridSpacing) && -diagram.gridSpacing <= 2 * (height - r) < diagram.gridSpacing
    {
      diagram.GridSnapValue(height)
    }

    /** The `x` getter: the stored left edge snapped to the grid. */
    function X(): (r: int)
      reads this, diagram
      ensures !diagram.snapToGrid ==> r == x
      ensures diagram.snapToGrid && diagram.gridSpacing > 0 ==>
        IsMultiple(r, diagram.gridSpacing) && -diagram.gridSpacing <= 2 * (x - r) < diagram.gridSpacing
    {
      diagram.GridSnapValue(x)
    }

    /** The `y` getter: the stored top edge snapped to the grid. */
    function Y(): (r: int)
      reads this, diagram
      ensures !diagram.snapToGrid ==> r == y
      ensures diagram.snapToGrid && diagram.gridSpacing > 0 ==>
        IsMultiple(r, diagram.gridSpacing) && -diagram.gridSpacing <= 2 * (y - r) < diagram.gridSpacing
    {
      diagram.GridSnapValue(y)
    }

    /**
     * The `width` setter: the value clamped between the shape's minimum width and the diagram's
     * (snapped) width. The component then never reads wider than the diagram did.
     */
    method SetWidth(value: int)
      requires Valid()
      modifies this`width
      ensures width == Clamp(Some(value), diagram.Width(), Some(MinWidth())).value
      ensures MinWidth() <= diagram.Width() ==> MinWidth() <= width <= diagram.Width()
      ensures MinWidth() <= diagram.Width() ==> Width() <= diagram.Width()
    {
      width := Clamp(Some(value), diagram.Width(), Some(MinWidth())).value;
      if width <= diagram.Width() {
        GridSnapMonotone(diagram.snapToGrid, diagram.gridSpacing, width, diagram.Width());
      }
      GridSnapIdempotent(diagram.snapToGrid, diagram.gridSpacing, diagram.width);
    }

    /** The `height` setter: the value clamped between the shape's minimum height and the diagram's (snapped) height. */
    method SetHeight(value: int)
      requires Valid()
      modifies this`height
      ensures height == Clamp(Some(value), diagram.Height(), Some(MinHeight())).value
      ensures MinHeight() <= diagram.Height() ==> MinHeight() <= height <= diagram.Height()
      ensures MinHeight() <= diagram.Height() ==> Height() <= diagram.Height()
    {
      height := Clamp(Some(value), diagram.Height(), Some(MinHeight())).value;
      if height <= diagram.Height() {
        GridSnapMonotone(diagram.snapToGrid, diagram.gridSpacing, height, diagram.Height());
      }
      GridSnapIdempotent(diagram.snapToGrid, diagram.gridSpacing, diagram.height);
    }

    /**
     * The `x` setter: `clamp(value, diagram.width - width)` with no upper bound given, so the
     * value is clamped between 0 and the room left by the component's width. When that room is
     * not negative, the component then reads inside the diagram's width.
     */
    method SetX(value: int)
      modifies this`x
      ensures x == Clamp(Some(value), diagram.Width() - Width(), None).value
      ensures diagram.Width() - Width() >= 0 ==> 0 <= x <= diagram.Width() - Width()
      ensures diagram.Width() - Width() < 0 ==> diagram.Width() - Width() <= x <= 0
      ensures diagram.Width() - Width() >= 0 ==> 0 <= X() && X() + Width() <= diagram.Width()
    {
      var room := diagram.Width() - Width();
      x := Clamp(Some(value), room, None).value;
      if x <= room {
        GridSnapMonotone(diagram.snapToGrid, diagram.gridSpacing, x, room);
      }
      GridSnapDifference(diagram.snapToGrid, diagram.gridSpacing, diagram.width, width);
    }

    /** The `y` setter: clamped between 0 and the room left by the component's height. */
    method SetY(value: int)
      modifies this`y
      ensures y == Clamp(Some(value), diagram.Height() - Height(), None).value
      ensures diagram.Height() - Height() >= 0 ==> 0 <= y <= diagram.Height() - Height()
      ensures diagram.Height() - Height() < 0 ==> diagram.Height() - Height() <= y <= 0
      ensures diagram.Height() - Height() >= 0 ==> 0 <= Y() && Y() + Height() <= diagram.Height()
    {
      var room := diagram.Height() - Height();
      y := Clamp(Some(value), room, None).value;
      if y <= room {
        GridSnapMonotone(diagram.snapToGrid, diagram.gridSpacing, y, room);
      }
      GridSnapDifference(diagram.snapToGrid, diagram.gridSpacing, diagram.height, height);
    }

    /** The `shape` setter: a catalog name is stored; any other name is ignored. */
    method SetShape(value: string)
      requires Valid()
      modifies this`shape
      ensures Valid()
      ensures shape == if value in Catalog then value else old(shape)
    {
      if value in Catalog {
        shape := value;
      }
    }

    /** The `angle` getter: the stored angle snapped to the snap angle (as intended, see `AngleSnapAsWritten`). */
    function Angle(): (r: int)
      reads this, diagram
      requires diagram.Valid()
      ensures !diagram.snapToAngle ==> r == angle
      ensures diagram.snapToAngle ==>
        IsMultiple(r, diagram.snapAngle) && -diagram.snapAngle <= 2 * (angle - r) < diagram.snapAngle
    {
      diagram.AngleSnapValue(angle)
    }

    /** The `angle` setter: stores the value as given, with no normalisation into a range of degrees. */
    method SetAngle(value: int)
      modifies this`angle
      ensures angle == value
    {
      angle := value;
    }

    /**
     * `rotate(by)`: `this.angle += by` reads the snapped angle, adds `delta` and stores the sum
     * raw; the snapped new angle is returned. A turn by a multiple of the snap angle moves the
     * reported angle by exactly that much.
     */
    method Rotate(delta: int) returns (r: int)
      requires diagram.Valid()
      modifies this`angle
      ensures angle == old(Angle()) + delta
      ensures r == Angle()
      ensures IsMultiple(delta, diagram.snapAngle) ==> r == old(Angle()) + delta
    {
      var before := Angle();
      SetAngle(before + delta);
      r := Angle();
      if IsMultiple(delta, diagram.snapAngle) {
        AngleSnapShift(diagram.snapToAngle, diagram.snapAngle, old(angle), delta);
      }
    }

    /** The `canFlip` getter. */
    function CanFlip(): (r: bool)
      reads this
      requires Valid()
      ensures r <==> shape == "parallelogram"
    {
      Capabilities();
      Definition().canFlip
    }

    /** The `canInvert` getter. */
    function CanInvert(): (r: bool)
      reads this
      requires Valid()
      ensures r <==> shape == "triangle"
    {
      Capabilities();
      Definition().canInvert
    }

    /** The `canTurn` getter. */
    function CanTurn(): (r: bool)
      reads this
      requires Valid()
      ensures r <==> shape == "triangle" || shape == "pill" || shape == "parallelogram"
    {
      Capabilities();
      Definition().canTurn
    }

    /** The `flipped` getter: false whenever the shape cannot flip. */
    function Flipped(): (r: bool)
      reads this
      requires Valid()
      ensures !CanFlip() ==> !r
      ensures CanFlip() ==> r == flipped
    {
      CanFlip() && flipped
    }

    /** The `inverted` getter: false whenever the shape cannot invert. */
    function Inverted(): (r: bool)
      reads this
      requires Valid()
      ensures !CanInvert() ==> !r
      ensures CanInvert() ==> r == inverted
    {
      CanInvert() && inverted
    }

    /** The `turned` getter: false whenever the shape cannot turn. */
    function Turned(): (r: bool)
      reads this
      requires Valid()
      ensures !CanTurn() ==> !r
      ensures CanTurn() ==> r == turned
    {
      CanTurn() && turned
    }

    /** The `flipped` setter: ignored when the shape cannot flip. */
    method SetFlipped(value: bool)
      requires Valid()
      modifies this`flipped
      ensures flipped == if CanFlip() then value else old(flipped)
    {
      if CanFlip() {
        flipped := value;
      }
    }

    /** The `inverted` setter: ignored when the shape cannot invert. */
    method SetInverted(value: bool)
      requires Valid()
      modifies this`inverted
      ensures inverted == if CanInvert() then value else old(inverted)
    {
      if CanInvert() {
        inverted := value;
      }
    }

    /** The `turned` setter: ignored when the shape cannot turn. */
    method SetTurned(value: bool)
      requires Valid()
      modifies this`turned
      ensures turned == if CanTurn() then value else old(turned)
    {
      if CanTurn() {
        turned := value;
      }
    }

    /**
     * `remove()`: `Diagram.removeItem(this)`. The id leaves both views; an item that was
     * registered always has its bucket, so removing it returns the item itself.
     */
    method Remove() returns (r: Result<Component, Thrown>)
      requires diagram.Valid()
      modifies diagram`items, diagram`itemsByType
      ensures diagram.Valid()
      ensures diagram.items == old(diagram.items) - {id}
      ensures r.Success? ==> r.value == this && itemType in diagram.itemsByType && id !in diagram.itemsByType[itemType]
      ensures id in old(diagram.items) ==> r == Success(this)
      ensures itemType in old(diagram.itemsByType) ==>
        r == Success(this) && diagram.itemsByType == RemoveFromBuckets(old(diagram.itemsByType), this)
      ensures itemType !in old(diagram.itemsByType) ==>
        r == Failure(TypeError) && diagram.itemsByType == old(diagram.itemsByType)
    {
      r := diagram.RemoveItem(this);
    }

    /** `Item.toJSON()`: the type tag and the id. */
    function ItemJSON(): (r: ItemRecord)
      ensures r.itemType == "component" && r.id == id
    {
      ComponentTag();
      ItemRecord(itemType, id)
    }

    /** `toJSON()`: the item record extended with the raw, unsnapped width, height, x and y. */
    function ToJSON(): (r: ComponentRecord)
      reads this
      ensures ItemRecord(r.itemType, r.id) == ItemJSON()
      ensures (r.width, r.height, r.x, r.y) == (width, height, x, y)
    {
      ComponentRecord(itemType, id, width, height, x, y)
    }

    /**
     * Feeds the record from `toJSON()` back through the width, height, x and y setters, as a
     * loader would: when each raw value lies within its setter's own clamp bounds, the record
     * comes back unchanged.
     */
    method Reload()
      requires Valid()
      requires Lower(diagram.Width(), Some(MinWidth())) <= width <= Upper(diagram.Width(), Some(MinWidth()))
      requires Lower(diagram.Height(), Some(MinHeight())) <= height <= Upper(diagram.Height(), Some(MinHeight()))
      requires Lower(diagram.Width() - Width(), None) <= x <= Upper(diagram.Width() - Width(), None)
      requires Lower(diagram.Height() - Height(), None) <= y <= Upper(diagram.Height() - Height(), None)
      modifies this`width, this`height, this`x, this`y
      ensures ToJSON() == old(ToJSON())
    {
      var w, h, x0, y0 := width, height, x, y;
      ClampWithin(w, diagram.Width(), Some(MinWidth()));
      SetWidth(w);
      assert width == w;
      ClampWithin(h, diagram.Height(), Some(MinHeight()));
      SetHeight(h);
      assert height == h;
      ClampWithin(x0, diagram.Width() - Width(), None);
      SetX(x0);
      ClampWithin(y0, diagram.Height() - Height(), None);
      SetY(y0);
    }
  }
}
