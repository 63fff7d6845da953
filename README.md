# Diagram editor geometry model

This project models the geometry core of a browser diagram editor written in JavaScript. It covers:

- the `clamp` helper that every numeric setter goes through (`scripts/global.js`);
- the `Diagram` settings: canvas size, border radius, grid and angle snapping, edit mode and selection (`scripts/diagram.js`);
- the item registry the diagram keeps by id and by type, and the id generator (`scripts/diagram.js`);
- the identity every `Item` carries: type tag, id, element id, registration, `remove`, `toJSON` (`scripts/item.js`);
- the `Component` geometry: the shape catalog, raw size and position clamped against the shape and the canvas, snapped getters, shape capabilities gating flip, invert and turn, and the angle with `rotate` (`scripts/component.js`).

Modules:

- `Wrappers`: `Option`, `Result` and the JavaScript errors the code can throw.
- `Global`: `Clamp`. A `None` number is input that `parseFloat` turns into `NaN`.
- `Snap`: rounding to a multiple, `gridSnap` and `angleSnap`, as pure functions over integers.
- `Ids`: the nine-character base-36 ids of `generateUniqueId`.
- `Shapes`: the static shape catalog.
- `Identity`: the pure parts of `Item`.
- `DiagramModel`: the classes `Diagram` and `Component`.

In the source, `Diagram` is a class of static fields, i.e. a process-wide singleton. Here it is one object that each component refers to. `Item` is abstract and `Component` is its only subclass, so `Item`'s identity lives in `Component`, and the registry holds components. `type` is a Dafny keyword; the type tag is the field `itemType`.

Raw values are stored; snapping is applied when a value is read. `Math.round(v / s) * s` is modelled over integers as rounding half up to the nearest multiple of `s` (`RoundToMultiple`).

Setters that clamp keep the class invariant `Diagram.Valid()`:

- width and height in [100, 10000];
- border radius in [0, 10000];
- grid spacing in [5, 99999];
- grid major 0 or in [1, 99999];
- grid type "lines" or "dots";
- snap angle in [5, 90];
- the two registry views agree: every item filed by id is in the bucket of its type, and every bucket entry is filed by id as the same item.

The constructor establishes the same invariant.

Interpretations of the code:

- `Component.shapes[...]` and `this.shapes.rectangle` (scripts/component.js:101, 124, 143, 237, 265, 293) name a property that does not exist; only the private `#shapes` does. They are read as lookups into the catalog. `shape || this.shapes.rectangle` leaves the default shape, "rectangle", in place.
- The component constructor never assigns `#x` and `#y`; they start at 0 here.
- The flags `#flipped`, `#inverted` and `#turned` have no initial value, and the constructor's setters skip any flag the shape cannot take, so the source leaves such a flag `undefined`. Here every flag starts as `false`. After a later change to a shape that permits the flag, the source's getter reads `undefined` where the model reads `false`.
- The `||` defaults of the constructors are modelled on values: an empty id, a width or height of 0 and an empty shape mean "not given".

## Model

| member | source | states |
|---|---|---|
| Global.Clamp | scripts/global.js:7-22 | NaN in gives NaN out and only then; a number comes back between the ordered bounds, equal to the number or to one of the bounds |
| Global.ClampSymmetric | scripts/global.js:9-13 | swapping the two bounds gives the same result |
| Global.ClampDefaultMax | scripts/global.js:8 | a missing upper bound acts as 0, so `clamp(v, m)` with m >= 0 clamps into [0, m] |
| Global.ClampPiecewise | scripts/global.js:18-21 | a value strictly inside the bounds is returned unchanged; one at or past a bound returns that bound |
| Global.ClampWithin | scripts/global.js:18-21 | a value within the ordered bounds, ends included, is returned unchanged |
| Global.ClampIdempotent | scripts/global.js:9-21 | clamping twice with the same bounds equals clamping once |
| Global.ClampMonotone | scripts/global.js:9-21 | a larger input never clamps to a smaller result |
| Global.ClampNaN | scripts/global.js:15-17 | non-numeric input yields the NaN sentinel for any bounds |
| Snap.RoundToMultiple | scripts/diagram.js:177 | `Math.round(v/s)*s` is a multiple of s within half a step of v, rounding halves up, and is not negative for v >= 0 |
| Snap.RoundUnique | scripts/diagram.js:177 | any multiple of s within that half-open window is the rounded value |
| Snap.RoundIdempotent | scripts/diagram.js:177 | rounding a rounded value changes nothing |
| Snap.RoundOfMultiple | scripts/diagram.js:177 | a multiple of the step is its own rounding |
| Snap.RoundNearest | scripts/diagram.js:177 | no multiple of the step is closer to the value than its rounding |
| Snap.RoundMonotone | scripts/diagram.js:177 | rounding preserves order |
| Snap.RoundShift | scripts/diagram.js:177 | shifting the value by a multiple of the step shifts its rounding by the same amount |
| Snap.GridSnap | scripts/diagram.js:174-181 | identity with snapping off; 0 for a non-positive spacing; otherwise a multiple of the spacing within half a spacing of the value |
| Snap.GridSnapIdempotent | scripts/diagram.js:174-181 | snapping a snapped value changes nothing |
| Snap.GridSnapDifference | scripts/diagram.js:174-181 | the difference of two snapped values is already on the grid |
| Snap.GridSnapNearest | scripts/diagram.js:174-181 | no grid line is closer to the value than the snapped value |
| Snap.GridSnapMonotone | scripts/diagram.js:174-181 | snapping preserves order |
| Snap.AngleSnap | scripts/diagram.js:213-220 | identity with angle snapping off, otherwise the nearest multiple of the snap angle |
| Snap.AngleSnapShift | scripts/diagram.js:213-220 | adding a multiple of the snap angle to a snapped angle moves the snapped angle by exactly that much |
| Snap.AngleSnapAsWritten | scripts/diagram.js:216 | as written, the call throws a TypeError exactly when angle snapping is on and otherwise returns the value |
| Snap.AngleSnapAsWrittenDiffers | scripts/diagram.js:213-220 | as written, the call throws with snapping on; with snapping off it agrees with the intended snap |
| Ids.IdSpaceIsPow | scripts/diagram.js:330 | the id space 101559956668416 is 36^9 |
| Ids.DigitChar | scripts/diagram.js:330 | each digit below 36 is written as 0-9 or A-Z |
| Ids.DigitValue | scripts/diagram.js:330 | every base-36 character denotes a digit below 36 |
| Ids.DigitRoundTrip | scripts/diagram.js:330 | reading back a written digit gives the digit |
| Ids.Encode | scripts/diagram.js:330 | `toString(36).toUpperCase().padStart(9, '0')` has exactly the padded length and only base-36 characters |
| Ids.DecodeEncode | scripts/diagram.js:330 | an encoded number that fits the width decodes back to itself |
| Ids.EncodeDistinct | scripts/diagram.js:330 | distinct numbers below 36^9 give distinct ids |
| Ids.FreeIdBelow | scripts/diagram.js:327-333 | while fewer than 36^9 ids are taken, some draw of the retry loop gives an id not taken |
| Shapes.Lookup | scripts/component.js:124 | a catalog name gives its definition, filed under that name; any other name gives nothing |
| Shapes.CatalogConsistent | scripts/component.js:17-84 | every entry carries its own name, and its defaults are at least its positive minimums |
| Shapes.CatalogNames | scripts/component.js:10-84 | the catalog holds exactly the six shapes, the default "rectangle" among them |
| Shapes.Capabilities | scripts/component.js:17-84 | only the parallelogram flips, only the triangle inverts, and exactly the triangle, pill and parallelogram turn |
| Identity.TypeTag | scripts/item.js:15 | the tag has the class name's length, its first character lowered and every later character kept |
| Identity.ToLowerAscii | scripts/item.js:15 | an upper-case letter becomes its lower-case letter; any other character is kept |
| Identity.TypeTagShape | scripts/item.js:14-15 | the tag keeps the class name's length and all characters after the first, starts with no capital, and is its own tag |
| Identity.ComponentTag | scripts/item.js:14-15 | the class `Component` gets the tag "component" |
| Identity.ElementId | scripts/item.js:17 | `#type-id` has length \|type\|+\|id\|+2, a '#' first and a '-' after the type |
| Identity.ElementIdInjective | scripts/item.js:17 | for tags without '-', equal element ids mean equal tags and equal ids |
| DiagramModel.AddToBuckets | scripts/diagram.js:285-288 | the item's bucket is created when missing and gains the item under its id; no other bucket changes |
| DiagramModel.RemoveFromBuckets | scripts/diagram.js:298 | the id leaves the item's bucket and every other entry of that bucket keeps its item; no other bucket changes and no bucket is dropped |
| DiagramModel.AddKeepsCoherent | scripts/diagram.js:282-291 | adding an item keeps the by-id and by-type views in agreement, in both directions |
| DiagramModel.RemoveKeepsCoherent | scripts/diagram.js:296-301 | removing an item whose bucket exists keeps the two views in agreement, in both directions |
| DiagramModel.AddThenRemove | scripts/diagram.js:282-301 | removing an item just added under a fresh id restores the id map exactly; the by-type view is restored exactly when the type bucket already existed, and otherwise keeps the bucket `addItem` created, now empty |
| DiagramModel.AddItemAsWritten | scripts/diagram.js:282-291 | as written, the item is stored by id, the by-type view is untouched, and the call throws a ReferenceError |
| DiagramModel.AddItemAsWrittenBreaksRegistry | scripts/diagram.js:285 | as written, adding an item not yet in its bucket leaves it missing from the by-type view |
| DiagramModel.SnapAngleScenario | scripts/diagram.js:205-208 | setting a fresh diagram's snap angle to 45 stores 45 both ways; as written the call throws a TypeError |
| DiagramModel.TallRadiusScenario | scripts/diagram.js:64-79 | a fresh diagram set to height 200 and radius 300 gets a maximum border radius of 400 and reads the radius as 300 as written; as intended the maximum and the radius are 100 |
| DiagramModel.Diagram.constructor | scripts/diagram.js:13-26 | the initial settings are 800, 800, 5, grid shown, spacing 10, major 5, lines, both snaps on, snap angle 5; the registry is empty; they satisfy the invariant |
| DiagramModel.Diagram.Width | scripts/diagram.js:37-39 | the stored width with grid snapping off; otherwise a multiple of the spacing within half a spacing of it |
| DiagramModel.Diagram.Height | scripts/diagram.js:51-53 | the same for the height |
| DiagramModel.Diagram.SetWidth | scripts/diagram.js:43-46 | stores the value clamped into [100, 10000]: unchanged inside, the nearer bound outside; keeps the invariant |
| DiagramModel.Diagram.SetHeight | scripts/diagram.js:57-60 | the same as the width setter, for the height |
| DiagramModel.Diagram.MaxBorderRadiusAsWritten | scripts/diagram.js:77-79 | as written, the maximum radius is half the snapped width, whatever the height |
| DiagramModel.Diagram.MaxBorderRadiusAsWrittenIgnoresHeight | scripts/diagram.js:77-79 | as written, a canvas wider than tall allows a radius above half its height and above the intended maximum |
| DiagramModel.Diagram.MaxBorderRadius | scripts/diagram.js:77-79 | as intended, the largest radius whose double fits both snapped sides |
| DiagramModel.Diagram.BorderRadiusAsWritten | scripts/diagram.js:64-66 | as written, the stored radius clamped into [0, half the width]: unchanged when it fits, the maximum when it does not |
| DiagramModel.Diagram.BorderRadius | scripts/diagram.js:64-66 | as intended, with the corrected maximum: the stored radius clamped into [0, maxBorderRadius]: unchanged when it fits, the maximum when it does not |
| DiagramModel.Diagram.SetBorderRadius | scripts/diagram.js:70-73 | stores the value clamped into [0, 10000]; negatives become 0; keeps the invariant |
| DiagramModel.Diagram.SetShowGrid | scripts/diagram.js:90-98 | stores the flag |
| DiagramModel.Diagram.ToggleGrid | scripts/diagram.js:101-103 | negates the flag |
| DiagramModel.Diagram.SetGridSpacing | scripts/diagram.js:114-117 | stores the value clamped into [5, 99999]; keeps the invariant |
| DiagramModel.Diagram.SetGridMajor | scripts/diagram.js:128-131 | stores 0 exactly for values at most 0, otherwise the value clamped into [1, 99999]; keeps the invariant |
| DiagramModel.Diagram.SetGridType | scripts/diagram.js:142-149 | a known grid type is stored; anything else falls back to "lines" |
| DiagramModel.Diagram.SetSnapToGrid | scripts/diagram.js:166-169 | stores the flag |
| DiagramModel.Diagram.SetSnapToAngleAsWritten | scripts/diagram.js:192-195 | as written, stores the flag and then throws a TypeError from the call to the undefined `drawItems` |
| DiagramModel.Diagram.SetSnapToAngle | scripts/diagram.js:192-195 | as intended, stores the flag and returns normally |
| DiagramModel.Diagram.SetSnapAngleAsWritten | scripts/diagram.js:205-208 | as written, stores the value clamped into [5, 90], keeping the invariant, and then throws a TypeError from the call to the undefined `drawItems` |
| DiagramModel.Diagram.SetSnapAngle | scripts/diagram.js:205-208 | as intended, stores the value clamped into [5, 90] and returns normally; a value inside the range is stored unchanged; keeps the invariant |
| DiagramModel.Diagram.SetSelectedItem | scripts/diagram.js:231-238 | a non-null item becomes the selection; null leaves the selection as it was |
| DiagramModel.Diagram.SetEdit | scripts/diagram.js:259-261 | stores the flag |
| DiagramModel.Diagram.GridSnapValue | scripts/diagram.js:174-181 | `gridSnap` under the current settings: the value with snapping off, otherwise a multiple of the spacing within half a spacing of it; snapping the result again changes nothing |
| DiagramModel.Diagram.AngleSnapValue | scripts/diagram.js:213-220 | `angleSnap` as intended under the current settings: the value with snapping off, otherwise a multiple of the snap angle within half a step of it |
| DiagramModel.Diagram.AddItem | scripts/diagram.js:282-291 | as intended: the item is filed under its id in both views, its bucket created when missing; nothing else changes; the item is returned; the views still agree |
| DiagramModel.Diagram.RemoveItem | scripts/diagram.js:296-301 | the id leaves the by-id view; with the bucket present it leaves the bucket and the item is returned; with no bucket the call throws a TypeError; the views still agree |
| DiagramModel.Diagram.GetItem | scripts/diagram.js:307-309 | the item filed under the id, also found in its type bucket; undefined exactly when no item has that id |
| DiagramModel.Diagram.GetAllItems | scripts/diagram.js:313-315 | exactly the registered items |
| DiagramModel.Diagram.GetAllItemsByType | scripts/diagram.js:320-322 | the items of that type, all of them and only registered ones; throws a TypeError exactly when the type has no bucket |
| DiagramModel.Diagram.GenerateUniqueId | scripts/diagram.js:327-333 | nine base-36 characters, the encoding of a number below 36^9, not the id of a registered item |
| DiagramModel.Diagram.ToJSON | scripts/diagram.js:696-713 | the raw settings, which lie in range, and one component record per registered id, carrying that id, the type "component" and the item's raw width, height, x and y |
| DiagramModel.Component.constructor | scripts/component.js:96-106 | the id is the given one or a fresh generated one; the element id is `#component-id`; the item is registered in both views; width and height are the given values (50 when 0) clamped between the rectangle's minimums and the canvas size; the shape is the given catalog name or "rectangle"; the flags are kept only where the shape allows them |
| DiagramModel.Component.Configure | scripts/component.js:99-105 | the setter calls of the constructor in source order |
| DiagramModel.Component.Definition | scripts/component.js:124 | the catalog entry of the current shape, filed under that shape's name |
| DiagramModel.Component.MinWidth | scripts/component.js:123-125 | the shape's minimum width: positive, at most its default width, and 50 for every shape |
| DiagramModel.Component.MinHeight | scripts/component.js:142-144 | the shape's minimum height: positive, at most its default height, and 20 for every shape |
| DiagramModel.Component.Width | scripts/component.js:111-113 | the raw width with snapping off; otherwise a multiple of the spacing within half a spacing of it |
| DiagramModel.Component.Height | scripts/component.js:130-132 | the same for the height |
| DiagramModel.Component.X | scripts/component.js:149-151 | the same for the left edge |
| DiagramModel.Component.Y | scripts/component.js:162-164 | the same for the top edge |
| DiagramModel.Component.SetWidth | scripts/component.js:117-124 | stores the value clamped between the shape's minimum width and the canvas width; when the minimum fits, the snapped width never exceeds the canvas |
| DiagramModel.Component.SetHeight | scripts/component.js:136-143 | the same for the height |
| DiagramModel.Component.SetX | scripts/component.js:155-157 | stores the value clamped into [0, room], where room is the canvas width minus the width; when the room is not negative, the snapped box lies inside the canvas |
| DiagramModel.Component.SetY | scripts/component.js:168-170 | the same for the top edge and the height |
| DiagramModel.Component.SetShape | scripts/component.js:181-186 | a catalog name is stored exactly; any other name leaves the shape unchanged |
| DiagramModel.Component.Angle | scripts/component.js:191-193 | as intended (the as-written `angleSnap` throws, see Snap.AngleSnapAsWritten): the stored angle with angle snapping off; otherwise a multiple of the snap angle within half a step of it |
| DiagramModel.Component.SetAngle | scripts/component.js:197-202 | stores the value as given, with no normalisation |
| DiagramModel.Component.Rotate | scripts/component.js:207-210 | as intended (with the corrected `angleSnap`): stores the snapped old angle plus the turn and returns the snapped new angle; a turn by a multiple of the snap angle moves the reported angle by exactly that turn |
| DiagramModel.Component.CanFlip | scripts/component.js:236-238 | true exactly for the parallelogram |
| DiagramModel.Component.CanInvert | scripts/component.js:264-266 | true exactly for the triangle |
| DiagramModel.Component.CanTurn | scripts/component.js:292-294 | true exactly for the triangle, the pill and the parallelogram |
| DiagramModel.Component.Flipped | scripts/component.js:217-219 | false whenever the shape cannot flip, otherwise the stored flag |
| DiagramModel.Component.Inverted | scripts/component.js:245-247 | false whenever the shape cannot invert, otherwise the stored flag |
| DiagramModel.Component.Turned | scripts/component.js:273-275 | false whenever the shape cannot turn, otherwise the stored flag |
| DiagramModel.Component.SetFlipped | scripts/component.js:225-230 | stores the flag only when the shape can flip |
| DiagramModel.Component.SetInverted | scripts/component.js:253-258 | stores the flag only when the shape can invert |
| DiagramModel.Component.SetTurned | scripts/component.js:281-286 | stores the flag only when the shape can turn |
| DiagramModel.Component.Remove | scripts/item.js:72-74 | the id leaves the by-id view; with the bucket present it leaves the bucket, nothing else in the by-type view changes and the item is returned itself; with no bucket a TypeError is thrown and the by-type view is unchanged; the views still agree |
| DiagramModel.Component.ItemJSON | scripts/item.js:96-103 | exactly the type "component" and the id |
| DiagramModel.Component.ToJSON | scripts/component.js:342-350 | the item record plus the raw, unsnapped width, height, x and y |
| DiagramModel.Component.Reload | scripts/component.js:117-170 | feeding the `toJSON()` width, height, x and y back through their setters leaves the record unchanged whenever each raw value lies within its setter's own clamp bounds |

## Left out

- Floating-point arithmetic. All lengths and angles are integers. `Math.round` of a negative half is modelled as rounding up, which is what JavaScript does. The division by 2 in `maxBorderRadius` is floored, so an odd side loses its half unit.
- Non-numeric setter input. The setters take integers. Where the source would store `NaN` (a non-numeric string from an input box), the model has no counterpart. `Clamp` itself keeps the `NaN` path as `None`.
- The `gridMajor` setter compares its raw input with 0 before clamping. Inputs such as the empty string, which compare as at most 0, are outside the integer model.
- The DOM, jQuery and animation work of the setters and of `initialize`, `draw`, `drawGrid`, `toggleOptions` and the menu-option methods. Redrawing is a no-op; the field assignments of `showGrid`, `edit` and `selectedItem` are kept.
- The event handlers of scripts/diagram.js:721-782, mouse tracking, `canCreateComponent` and the empty `createComponent`. These are UI wiring. The handlers at scripts/diagram.js:762-767 write `#snapToAngle` and `#snapAngle` directly and bypass the setter's clamp. The model's invariant therefore holds only for changes made through the setters.
- `svgElement` and `getHeightOfEquilateralTriangle` (scripts/global.js:28-38): a DOM call and a floating-point square root.
- `toString` on the diagram and on items: `JSON.stringify` of the records `ToJSON` and `ItemJSON` build.
- `optionsId`, `element` and `menuOptions` of `Item`, and the component's `#color`: they only serve the view.
- DiagramModel.Diagram.GetAllItems: returns a set. The order of `Object.values` (insertion order) is not modelled.
- DiagramModel.Diagram.GetAllItemsByType: returns a set, for the same reason.
- DiagramModel.Component.ToJSON: the source has no load path, so the round trip is stated only through the setters (Component.Reload); the constructor's `width || 50` and `height || 50` (scripts/component.js:99-100) would rebuild a raw width or height of 0 as 50, and 0 is reachable when a grid spacing above 1600 snaps an 800-wide canvas to 0.
- DiagramModel.Diagram.ToJSON: gives the item records as a map keyed by id. The source emits an array in `Object.values` order, which is not modelled.
- The two registry views are Dafny maps. The source uses plain objects, which inherit the keys of `Object.prototype`. The model does not capture the behaviour of keys that are member names of `Object.prototype`: `getItem("toString")` returns a function, `getAllItemsByType("constructor")` returns an empty array instead of throwing, and an item with id `__proto__` re-parents the registry instead of being stored.
- DiagramModel.Diagram.GenerateUniqueId: `Math.random` is not modelled. The successful draw of the retry loop is chosen outright among the ids not taken. The method requires fewer than 36^9 registered ids, because with all of them taken the source loops forever.
- DiagramModel.Component.SetAngle: takes integers. The source stores whatever it is given.
- DiagramModel.Diagram.BorderRadius: clamps against the corrected maximum, half the smaller side, where the source clamps against half the width (scripts/diagram.js:65, 78). The getter as written is `DiagramModel.Diagram.BorderRadiusAsWritten`; see Findings.
- Snap.AngleSnap: requires a positive snap angle, which the setter's clamp into [5, 90] guarantees. A direct write by the handler at scripts/diagram.js:766 could store something else.
- Identity.ToLowerAscii: lowers ASCII letters only. Class names are ASCII.
- Shrinking the canvas does not re-clamp existing components, in the code or in the model: component sizes and positions are clamped only when they are set.

## Findings

| source | as written | input that shows it | evidently intended | confidence | as-written member | corrected member |
|---|---|---|---|---|---|---|
| scripts/diagram.js:285 | `addItem` tests `hasOwnProperty(type)` on an undeclared name, which throws a ReferenceError after the item is stored by id but before it reaches its type bucket | any item, e.g. the first component created | test `item.type` and file the item in both views | high; not executed | DiagramModel.AddItemAsWrittenBreaksRegistry | DiagramModel.Diagram.AddItem |
| scripts/diagram.js:216 | `angleSnap` assigns to the `const` `angle`, which throws a TypeError whenever angle snapping is on | any angle read with snapToAngle true (the initial setting) | return `Math.round(value / angle) * angle` | high; not executed | Snap.AngleSnapAsWrittenDiffers | Snap.AngleSnap |
| scripts/diagram.js:207 | the `snapAngle` setter (and the `snapToAngle` setter at line 194) calls `Diagram.drawItems`, which the class does not define; each stores its value and then throws a TypeError | `Diagram.snapAngle = 45` on a fresh diagram: 45 is stored and the assignment throws | redraw the items, as `draw` does for the other settings, and return normally | high; not executed | DiagramModel.SnapAngleScenario | DiagramModel.Diagram.SetSnapAngle |
| scripts/diagram.js:78 | `maxBorderRadius` is `Math.min(width, width) / 2`, which ignores the height | a fresh diagram with height 200 and radius 300: maximum 400 and radius 300 as written, where half the smaller side is 100 | `Math.min(width, height) / 2`, so the `borderRadius` getter never exceeds half of either side | medium; not executed | DiagramModel.TallRadiusScenario | DiagramModel.Diagram.BorderRadius |
