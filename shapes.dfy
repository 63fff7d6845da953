/** The static shape catalog of `Component` (`Component.#shapes` in scripts/component.js). */
module Shapes {
  import opened Wrappers

  /** One catalog entry: minimum and default size, default colour and the transforms the shape allows. */
  datatype ShapeDefinition = ShapeDefinition(
    name: string,
    minWidth: int,
    minHeight: int,
    defaultWidth: int,
    defaultHeight: int,
    defaultColor: string,
    canFlip: bool,
    canInvert: bool,
    canTurn: bool)

  /** The shape a component has before anything assigns one (`#shape = 'rectangle'`). */
  const DefaultShape: string := "rectangle"

  /** The six shapes, keyed by name. */
  const Catalog: map<string, ShapeDefinition> := map[
    "rectangle" := ShapeDefinition("rectangle", 50, 20, 200, 60, "#a670db", false, false, false),
    "ellipse" := ShapeDefinition("ellipse", 50, 20, 60, 60, "#dbdb70", false, false, false),
    "triangle" := ShapeDefinition("triangle", 50, 20, 60, 60, "#db70db", false, true, true),
    "pill" := ShapeDefinition("pill", 50, 20, 200, 60, "#db7070", false, false, true),
    "rhombus" := ShapeDefinition("rhombus", 50, 20, 200, 60, "#8bdb70", false, false, false),
    "parallelogram" := ShapeDefinition("parallelogram", 50, 20, 200, 60, "#dba670", true, false, true)
  ]

  /** The catalog lookup: the definition of a known shape, `None` for any other name. */
  function Lookup(name: string): (r: Option<ShapeDefinition>)
    ensures r.Some? <==> name in Catalog
    ensures r.Some? ==> r.value.name == name
  {
    if name in Catalog then
      CatalogConsistent();
      Some(Catalog[name])
    else None
  }

  /** Every entry is filed under its own name, and its defaults respect its minimums. */
  lemma CatalogConsistent()
    ensures forall name :: name in Catalog ==> Catalog[name].name == name
    ensures forall name :: name in Catalog ==>
      0 < Catalog[name].minWidth <= Catalog[name].defaultWidth && 0 < Catalog[name].minHeight <= Catalog[name].defaultHeight
  {
  }

  /** The catalog holds exactly six names, the default among them. */
  lemma CatalogNames()
    ensures Catalog.Keys == {"rectangle", "ellipse", "triangle", "pill", "rhombus", "parallelogram"}
    ensures DefaultShape in Catalog
  {
  }

  /** Only the parallelogram flips, only the triangle inverts, and the triangle, pill and parallelogram turn. */
  lemma Capabilities()
    ensures forall name :: name in Catalog ==> (Catalog[name].canFlip <==> name == "parallelogram")
    ensures forall name :: name in Catalog ==> (Catalog[name].canInvert <==> name == "triangle")
    ensures forall name :: name in Catalog ==>
      (Catalog[name].canTurn <==> name == "triangle" || name == "pill" || name == "parallelogram")
  {
  }
}
