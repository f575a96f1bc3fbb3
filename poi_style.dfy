/**
 The points-of-interest lookups with fallbacks: the icon and colour
 `pointToLayer` puts in a marker, the type and description lines of the popup
 text, and the circle style `stylePois` computes (a function the script
 defines but never calls).
 */
module PoiStyle {
  import opened Wrappers
  import opened Catalog

  /** The `properties` of a point feature; an absent field is None. */
  datatype PoiProperties = PoiProperties(name: Option<string>, description: Option<string>, poiType: Option<string>)

  /** The style object `stylePois` returns. */
  datatype CircleStyle = CircleStyle(radius: nat, fillColor: string, color: string, weight: nat, opacity: real, fillOpacity: real)

  /** JavaScript truthiness of an optional string: present and non-empty. */
  predicate Truthy(s: Option<string>)
  {
    s.Some? && s.value != ""
  }

  /** `feature.properties.type || 'info'`. */
  function EffectiveType(t: Option<string>): string
  {
    if Truthy(t) then t.value else "info"
  }

  /** `stylePois`: the table colour of the type, else the info colour. */
  function StylePois(p: PoiProperties): CircleStyle
  {
    var ty := EffectiveType(p.poiType);
    var fill := if ty in IconTable then IconTable[ty].color else IconTable["info"].color;
    CircleStyle(8, fill, "#fff", 1, 1.0, 0.8)
  }

  /** The icon name and colour `pointToLayer` puts in a marker, with its own
      literal fallbacks "info-circle" and "#777". */
  function PoiIcon(p: PoiProperties): IconStyle
  {
    var ty := EffectiveType(p.poiType);
    var icon := if ty in IconTable then IconTable[ty].icon else "info-circle";
    var color := if ty in IconTable then IconTable[ty].color else "#777";
    IconStyle(icon, color)
  }

  /** `toUpperCase` on one character, for the ASCII letters. */
  function UpperChar(c: char): (r: char)
    ensures 'a' <= c <= 'z' ==> 'A' <= r <= 'Z' && r as int == c as int - 32
    ensures !('a' <= c <= 'z') ==> r == c
  {
    if 'a' <= c <= 'z' then (c as int - 32) as char else c
  }

  /** The popup's type line: the type with its first letter upper-cased, or
      'General Point'. */
  function TypeLabel(p: PoiProperties): string
  {
    if Truthy(p.poiType) then [UpperChar(p.poiType.value[0])] + p.poiType.value[1..] else "General Point"
  }

  /** The popup's description line. */
  function DescriptionText(p: PoiProperties): string
  {
    if Truthy(p.description) then p.description.value else "No description available."
  }

  /** The colour a CSS hex colour denotes, with the three-digit form expanded. */
  function CssColor(c: string): string
  {
    if |c| == 4 && c[0] == '#' then ['#', c[1], c[1], c[2], c[2], c[3], c[3]] else c
  }

  /** Every colour of the icon table is already in six-digit form, and the
      marker's literal fallback "#777" denotes the table's info colour. */
  lemma TableColorsCanonical()
    ensures forall t :: t in IconTable ==> CssColor(IconTable[t].color) == IconTable[t].color
    ensures CssColor("#777") == IconTable["info"].color
  {
    forall t | t in IconTable
      ensures CssColor(IconTable[t].color) == IconTable[t].color
    {
      assert |IconTable[t].color| == 7;
    }
    assert CssColor("#777") == "#777777";
  }

  /** A missing or empty type is styled as 'info' by both lookups. */
  lemma MissingTypeIsInfo(p: PoiProperties)
    requires !Truthy(p.poiType)
    ensures StylePois(p).fillColor == "#777777"
    ensures PoiIcon(p) == IconStyle("info-circle", "#777777")
  {
  }

  /** A type the table does not know gets the info colour from `stylePois`
      and the literal fallbacks from `pointToLayer`. */
  lemma UnknownTypeFallbacks(p: PoiProperties)
    requires Truthy(p.poiType) && p.poiType.value !in IconTable
    ensures StylePois(p).fillColor == "#777777"
    ensures PoiIcon(p) == IconStyle("info-circle", "#777")
  {
  }

  /** A type the table knows gets that entry, in both lookups. */
  lemma KnownTypeUsesTable(p: PoiProperties)
    requires Truthy(p.poiType) && p.poiType.value in IconTable
    ensures StylePois(p).fillColor == IconTable[p.poiType.value].color
    ensures PoiIcon(p) == IconTable[p.poiType.value]
  {
  }

  /** The colour `stylePois` computes and the colour `pointToLayer` puts in
      the marker denote the same CSS colour for every feature, although the
      two fallbacks are written differently ("#777777" and "#777"). */
  lemma StyleAndIconColorsAgree(p: PoiProperties)
    ensures CssColor(StylePois(p).fillColor) == CssColor(PoiIcon(p).color)
  {
    TableColorsCanonical();
  }

  /** The type label capitalises the first letter and keeps the rest; a
      first character that is not a lower-case letter is kept too; an absent
      or empty type reads 'General Point'. */
  lemma TypeLabelShape(p: PoiProperties)
    ensures Truthy(p.poiType) ==> |TypeLabel(p)| == |p.poiType.value| && TypeLabel(p)[1..] == p.poiType.value[1..]
    ensures Truthy(p.poiType) && 'a' <= p.poiType.value[0] <= 'z' ==>
              'A' <= TypeLabel(p)[0] <= 'Z' && TypeLabel(p)[0] as int == p.poiType.value[0] as int - 32
    ensures Truthy(p.poiType) && !('a' <= p.poiType.value[0] <= 'z') ==> TypeLabel(p) == p.poiType.value
    ensures !Truthy(p.poiType) ==> TypeLabel(p) == "General Point"
  {
  }

  /** The description line shows the description when there is one. */
  lemma DescriptionDefault(p: PoiProperties)
    ensures Truthy(p.description) ==> DescriptionText(p) == p.description.value
    ensures !Truthy(p.description) ==> DescriptionText(p) == "No description available."
  {
  }
}
