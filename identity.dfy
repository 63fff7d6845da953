/** The value side of `Item` (scripts/item.js): how an item's type tag, element id and record are formed. */
module Identity {

  /** `toLowerCase` on one character, for the ASCII letters class names are written in. */
  function ToLowerAscii(c: char): (l: char)
    ensures !('A' <= l <= 'Z')
    ensures !('A' <= c <= 'Z') ==> l == c
    ensures 'A' <= c <= 'Z' ==> l as int == c as int + 32
  {
    if 'A' <= c <= 'Z' then (c as int + 32) as char else c
  }

  /** `name[0].toLowerCase() + name.slice(1)`: the type tag derived from a class name. */
  function TypeTag(className: string): (t: string)
    requires className != ""
    ensures |t| == |className| && t[0] == ToLowerAscii(className[0])
    ensures forall i :: 1 <= i < |t| ==> t[i] == className[i]
  {
    [ToLowerAscii(className[0])] + className[1..]
  }

  /** The tag keeps the class name's length and every character after the first, and starts with no capital. */
  lemma TypeTagShape(className: string)
    requires className != ""
    ensures |TypeTag(className)| == |className|
    ensures TypeTag(className)[1..] == className[1..]
    ensures !('A' <= TypeTag(className)[0] <= 'Z')
    ensures TypeTag(TypeTag(className)) == TypeTag(className)
  {
    assert TypeTag(className)[0] == ToLowerAscii(className[0]);
  }

  /** The `Component` class gets the tag "component". */
  lemma ComponentTag()
    ensures TypeTag("Component") == "component"
  {
  }

  /** `#${type}-${id}`: the id of the item's element in the drawing. */
  function ElementId(itemType: string, id: string): (e: string)
    ensures |e| == |itemType| + |id| + 2
    ensures e[0] == '#' && e[1 + |itemType|] == '-'
  {
    "#" + itemType + "-" + id
  }

  /** For a type tag without '-', the element id determines both the tag and the item id. */
  lemma {:induction false} ElementIdInjective(t1: string, i1: string, t2: string, i2: string)
    requires '-' !in t1 && '-' !in t2
    requires ElementId(t1, i1) == ElementId(t2, i2)
    ensures t1 == t2 && i1 == i2
  {
    var e := ElementId(t1, i1);
    assert forall j :: 0 <= j < |t1| ==> e[1 + j] == t1[j];
    assert forall j :: 0 <= j < |t2| ==> e[1 + j] == t2[j];
    assert |t1| == |t2|;
    assert t1 == e[1..1 + |t1|] == t2;
    assert i1 == e[2 + |t1|..] == i2;
  }

  /** `Item.toJSON()`: exactly the type tag and the id. */
  datatype ItemRecord = ItemRecord(itemType: string, id: string)
}
