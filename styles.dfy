/** The colour helpers of `src/utils/geoUtils.js`: `getZoningColor`, which
    picks a zoning category by key prefix, and `getSectorStyle`, which picks
    a palette for an activity sector by keyword.  The category table
    (`ZONING_CAT_INFO` of the constants module) is a parameter. */
module Styles {
  import opened Wrappers
  import opened JsString
  import opened JsValue

  /** What the category table holds for one key. */
  datatype CatInfo = CatInfo(labelText: string, color: string)

  /** The category table as `Object.keys` enumerates it: key and entry. */
  type CatTable = seq<(string, CatInfo)>

  /** `catInfo[key]`: the entry stored under exactly this key. */
  function Entry(table: CatTable, key: string): (r: Option<CatInfo>)
    ensures r.Some? <==> exists i :: 0 <= i < |table| && table[i].0 == key
    ensures r.Some? ==> exists i :: 0 <= i < |table| && table[i] == (key, r.value)
  {
    if table == [] then None
    else if table[0].0 == key then Some(table[0].1)
    else
      var r := Entry(table[1..], key);
      assert forall i :: 1 <= i < |table| ==> table[i] == table[1..][i - 1];
      r
  }

  const NoKeyColor: string := "#ccc"
  const UnknownCategoryColor: string := "#9ca3af"

  /** The first table position whose key is a prefix of `k`. */
  function FirstPrefix(table: CatTable, k: string): (r: Option<nat>)
    ensures r.Some? ==> r.value < |table| && StartsWith(k, table[r.value].0)
    ensures r.Some? ==> forall j :: 0 <= j < r.value ==> !StartsWith(k, table[j].0)
    ensures r.None? ==> forall j :: 0 <= j < |table| ==> !StartsWith(k, table[j].0)
  {
    if table == [] then None
    else if StartsWith(k, table[0].0) then Some(0)
    else
      assert forall j :: 1 <= j < |table| ==> table[j] == table[1..][j - 1];
      match FirstPrefix(table[1..], k)
      case Some(i) => Some(i + 1)
      case None => None
  }

  /** `getZoningColor(key)`: grey for a falsy key; otherwise the colour of
      the first category whose key prefixes the upper-cased key.  A matching
      category with the empty key is falsy and also gives the fallback. */
  function ZoningColor(table: CatTable, key: Option<Value>): (r: string)
    ensures !Truthy(key) ==> r == NoKeyColor
    ensures Truthy(key) ==>
      var k := ToUpper(TextOr(key));
      (forall i :: 0 <= i < |table| && table[i].0 != "" && StartsWith(k, table[i].0)
                   && (forall j :: 0 <= j < i ==> !StartsWith(k, table[j].0))
                   ==> r == table[i].1.color)
      && ((forall i :: 0 <= i < |table| ==> !StartsWith(k, table[i].0)) ==> r == UnknownCategoryColor)
    ensures Truthy(key) ==>
      var m := FirstPrefix(table, ToUpper(TextOr(key)));
      m.Some? && table[m.value].0 == "" ==> r == UnknownCategoryColor
  {
    if !Truthy(key) then NoKeyColor
    else
      var k := ToUpper(TextOr(key));
      match FirstPrefix(table, k)
      case Some(i) => if table[i].0 != "" then table[i].1.color else UnknownCategoryColor
      case None => UnknownCategoryColor
  }

  /** The colour lookup ignores case: a key and its upper case get the same
      colour. */
  lemma ZoningColorIgnoresCase(table: CatTable, s: string)
    ensures ZoningColor(table, Some(Text(s))) == ZoningColor(table, Some(Text(ToUpper(s))))
  {
    ToUpperIdempotent(s);
    if s != [] {
      assert |ToUpper(s)| >= |s|;
    }
  }

  /** The three colours of a sector badge. */
  datatype Palette = Palette(bg: string, border: string, text: string)

  const AgriculturalPalette: Palette := Palette("#FEF9C3", "#FACC15", "#854D0E")
  const LivestockPalette: Palette := Palette("#FFEDD5", "#FB923C", "#9A3412")
  const ForestPalette: Palette := Palette("#DCFCE7", "#22C55E", "#14532D")
  const TourismPalette: Palette := Palette("#E0E7FF", "#6366F1", "#312E81")
  const NeutralPalette: Palette := Palette("#F3F4F6", "#9CA3AF", "#374151")

  predicate Agricultural(norm: string) {
    Includes(norm, "agrícola") || Includes(norm, "agricola") || Includes(norm, "agro")
  }

  predicate Livestock(norm: string) {
    Includes(norm, "pecuario") || Includes(norm, "ganad")
  }

  predicate Forest(norm: string) {
    Includes(norm, "forestal") || Includes(norm, "bosque")
  }

  predicate Tourism(norm: string) {
    Includes(norm, "turismo") || Includes(norm, "eco")
  }

  /** `getSectorStyle`: the sector name lower-cased and trimmed, then the
      keyword families tried in order; the infrastructure family and the
      default share the neutral palette. */
  function SectorStyle(sectorName: string): (r: Palette)
    ensures var norm := Trim(ToLower(sectorName));
      (Agricultural(norm) ==> r == AgriculturalPalette)
      && (!Agricultural(norm) && Livestock(norm) ==> r == LivestockPalette)
      && (!Agricultural(norm) && !Livestock(norm) && Forest(norm) ==> r == ForestPalette)
      && (!Agricultural(norm) && !Livestock(norm) && !Forest(norm) && Tourism(norm) ==> r == TourismPalette)
      && (r == NeutralPalette <==> !Agricultural(norm) && !Livestock(norm) && !Forest(norm) && !Tourism(norm))
  {
    var norm := Trim(ToLower(sectorName));
    if Agricultural(norm) then AgriculturalPalette
    else if Livestock(norm) then LivestockPalette
    else if Forest(norm) then ForestPalette
    else if Tourism(norm) then TourismPalette
    else if Includes(norm, "infra") || Includes(norm, "equip") then NeutralPalette
    else NeutralPalette
  }
}
