/** The display helpers of `src/utils/analysisUtils.js`: the zoning label,
    the black-or-white text colour for a background (YIQ luma) and the
    citizen explanation, whose Spanish texts are summarised as tags. */
module AnalysisUtils {
  import opened Wrappers
  import opened JsString
  import opened JsValue
  import opened Classification
  import opened Styles
  import opened ZoningRules
  import Engine

  const NoDataLabel: string := "Información no disponible"
  const NoInformationLabel: string := "Sin información"

  /** The property name JavaScript looks up for a key: `undefined` becomes
      the text "undefined". */
  function PropertyName(key: Option<string>): string {
    if key.Some? then key.value else "undefined"
  }

  /** `getZoningDisplay`: empty for a missing record, the fixed labels for
      ANP and NODATA, else the table label, the zoning name or a fallback. */
  function ZoningDisplay(table: CatTable, a: Option<Analysis>): (r: string)
    ensures r == "" <==> a.None?
    ensures a.Some? && a.value.zoningKey == Some("ANP") ==> r == Engine.ProtectedAreaName
    ensures a.Some? && a.value.zoningKey == Some("NODATA") ==> r == NoDataLabel
    ensures a.Some? && a.value.zoningKey != Some("ANP") && a.value.zoningKey != Some("NODATA") ==>
      var e := Entry(table, PropertyName(a.value.zoningKey));
      if e.Some? && e.value.labelText != "" then r == e.value.labelText
      else if Truthy(a.value.zoningName) then r == TextOr(a.value.zoningName)
      else r == NoInformationLabel
  {
    if a.None? then ""
    else if a.value.zoningKey == Some("ANP") then Engine.ProtectedAreaName
    else if a.value.zoningKey == Some("NODATA") then NoDataLabel
    else
      var e := Entry(table, PropertyName(a.value.zoningKey));
      if e.Some? && e.value.labelText != "" then e.value.labelText
      else if Truthy(a.value.zoningName) then TextOr(a.value.zoningName)
      else NoInformationLabel
  }

  /** With distinct keys, the lookup finds the entry stored under a key. */
  lemma {:induction false} EntryOfUniqueKey(table: CatTable, k: string, info: CatInfo)
    requires (k, info) in table
    requires forall i, j :: 0 <= i < j < |table| ==> table[i].0 != table[j].0
    ensures Entry(table, k) == Some(info)
    decreases |table|
  {
    var i :| 0 <= i < |table| && table[i] == (k, info);
    if table[0].0 == k {
      assert i == 0;
    } else {
      assert table[1..][i - 1] == (k, info);
      EntryOfUniqueKey(table[1..], k, info);
    }
  }

  /** A table label wins over the zoning name for every key but ANP and
      NODATA. */
  lemma LabelBeforeName(table: CatTable, a: Analysis, k: string, info: CatInfo)
    requires a.zoningKey == Some(k) && k != "ANP" && k != "NODATA"
    requires (k, info) in table && info.labelText != ""
    requires forall i, j :: 0 <= i < j < |table| ==> table[i].0 != table[j].0
    ensures ZoningDisplay(table, Some(a)) == info.labelText
  {
    EntryOfUniqueKey(table, k, info);
  }

  // ---------------------------------------------------------------------
  // Text colour for a background

  /** A three-digit code with every digit doubled. */
  function ExpandShortHex(h: string): (r: string)
    ensures |h| == 3 ==> |r| == 6 && forall i :: 0 <= i < 6 ==> r[i] == h[i / 2]
    ensures |h| != 3 ==> r == h
  {
    if |h| == 3 then [h[0], h[0], h[1], h[1], h[2], h[2]] else h
  }

  /** The YIQ luma scaled by 1000. */
  function Luma(r: int, g: int, b: int): int {
    r * 299 + g * 587 + b * 114
  }

  const DarkText: string := "#000000"
  const LightText: string := "#ffffff"

  /** The colour for three parsed channels; `None` is `NaN`, and every
      comparison with it fails. */
  function Verdict(red: Option<int>, green: Option<int>, blue: Option<int>): (r: string)
    ensures r == DarkText <==>
      red.Some? && green.Some? && blue.Some? && Luma(red.value, green.value, blue.value) >= 128000
    ensures r == DarkText || r == LightText
  {
    if red.Some? && green.Some? && blue.Some? && Luma(red.value, green.value, blue.value) >= 128000
    then DarkText
    else LightText
  }

  /** The code once the `#` is removed: expanded when it has three digits,
      then read as three base-16 pairs. */
  function CodeContrast(h: string): string {
    var e := ExpandShortHex(h);
    Verdict(ParseIntHex(Substr(e, 0, 2)), ParseIntHex(Substr(e, 2, 2)), ParseIntHex(Substr(e, 4, 2)))
  }

  /** `getContrastYIQ`: "black" for an empty input; otherwise the first `#`
      removed and the code read as above. */
  function ContrastYIQ(hexcolor: string): (r: string)
    ensures r == "black" <==> hexcolor == ""
    ensures hexcolor != "" ==> r == DarkText || r == LightText
  {
    if hexcolor == "" then "black"
    else CodeContrast(RemoveFirst(hexcolor, '#'))
  }

  predicate IsHexDigit(c: char) {
    HexDigit(c).Some?
  }

  /** The value of the two hexadecimal digits at `i` and `i + 1`. */
  function Channel(h: string, i: nat): int
    requires i + 1 < |h| && IsHexDigit(h[i]) && IsHexDigit(h[i + 1])
  {
    16 * HexDigit(h[i]).value + HexDigit(h[i + 1]).value
  }

  /** `parseInt` of two hexadecimal digits. */
  lemma ParseTwoHexDigits(s: string)
    requires |s| == 2 && IsHexDigit(s[0]) && IsHexDigit(s[1])
    ensures ParseIntHex(s) == Some(Channel(s, 0))
  {
    assert !IsWhitespace(s[0]);
    assert TrimStart(s) == s;
    assert s[1..][1..] == [];
    assert HexPrefix(s, 0, 0) == HexPrefix(s[1..], HexDigit(s[0]).value, 1);
    assert HexPrefix(s[1..], HexDigit(s[0]).value, 1) == (Channel(s, 0), 2);
  }

  predicate AllHex(h: string) {
    forall i :: 0 <= i < |h| ==> IsHexDigit(h[i])
  }

  /** A six-digit code gets dark text exactly when 299 r + 587 g + 114 b is
      at least 128000. */
  lemma SixDigitCode(h: string)
    requires |h| == 6 && AllHex(h)
    ensures CodeContrast(h)
            == if Luma(Channel(h, 0), Channel(h, 2), Channel(h, 4)) >= 128000 then DarkText else LightText
  {
    assert ExpandShortHex(h) == h;
    PairAt(h, 0);
    PairAt(h, 2);
    PairAt(h, 4);
  }

  /** The pair of digits at `i` parses to the channel there. */
  lemma PairAt(h: string, i: nat)
    requires i + 1 < |h| && AllHex(h)
    ensures ParseIntHex(Substr(h, i, 2)) == Some(Channel(h, i))
  {
    var s := h[i..i + 2];
    assert Substr(h, i, 2) == s;
    ParseTwoHexDigits(s);
    assert Channel(s, 0) == Channel(h, i);
  }

  /** The leading `#` is optional. */
  lemma HashIsOptional(h: string)
    requires h != [] && '#' !in h
    ensures ContrastYIQ("#" + h) == ContrastYIQ(h) == CodeContrast(h)
  {
    assert ("#" + h)[1..] == h;
  }

  /** `#rrggbb` gets dark text exactly when 299 r + 587 g + 114 b is at
      least 128000. */
  lemma SixDigitContrast(h: string)
    requires |h| == 6 && AllHex(h)
    ensures ContrastYIQ("#" + h)
            == if Luma(Channel(h, 0), Channel(h, 2), Channel(h, 4)) >= 128000 then DarkText else LightText
  {
    assert '#' !in h by {
      assert forall i :: 0 <= i < |h| ==> h[i] != '#';
    }
    HashIsOptional(h);
    SixDigitCode(h);
  }

  /** `#rgb` reads as `#rrggbb`. */
  lemma ThreeDigitContrast(h: string)
    requires |h| == 3 && AllHex(h)
    ensures ContrastYIQ("#" + h) == ContrastYIQ("#" + ExpandShortHex(h))
  {
    var e := ExpandShortHex(h);
    assert '#' !in h by {
      assert forall i :: 0 <= i < |h| ==> h[i] != '#';
    }
    assert '#' !in e by {
      assert forall i :: 0 <= i < |e| ==> e[i] == h[i / 2];
    }
    HashIsOptional(h);
    HashIsOptional(e);
  }

  /** `#rgb` gets dark text exactly when the luma of the doubled digits,
      17 times each digit's value, reaches the threshold. */
  lemma ShortCodeContrast(h: string)
    requires |h| == 3 && AllHex(h)
    ensures ContrastYIQ("#" + h)
            == if Luma(17 * HexDigit(h[0]).value, 17 * HexDigit(h[1]).value, 17 * HexDigit(h[2]).value) >= 128000
               then DarkText else LightText
  {
    var e := ExpandShortHex(h);
    assert AllHex(e);
    ThreeDigitContrast(h);
    SixDigitContrast(e);
    assert Channel(e, 0) == 17 * HexDigit(h[0]).value;
    assert Channel(e, 2) == 17 * HexDigit(h[1]).value;
    assert Channel(e, 4) == 17 * HexDigit(h[2]).value;
  }

  /** White, `#fff`, gets dark text. */
  lemma WhiteGetsDarkText()
    ensures ContrastYIQ("#fff") == DarkText
  {
    assert "#fff" == "#" + "fff";
    ShortCodeContrast("fff");
  }

  /** Black, `#000`, gets light text. */
  lemma BlackGetsLightText()
    ensures ContrastYIQ("#000") == LightText
  {
    assert "#000" == "#" + "000";
    ShortCodeContrast("000");
  }

  // ---------------------------------------------------------------------
  // Citizen explanation

  /** The explanation texts, one tag per distinct text. */
  datatype Explanation =
    | InNeighbourState(state: Neighbour)
    | OutsideCity
    | UrbanProtectedArea
    | UrbanPlans(borough: string)
    | ConservationProtectedArea
    | EcologicalRestoration
    | HighEnvironmentalValue
    | RuralProduction
    | AgriculturalPotential
    | PduEquipment
    | PduRuralSettlement
    | ConservationGeneral

  /** The text of the conservation-soil `switch` on the zoning key. */
  function ConservationText(key: Option<string>): Explanation {
    if key == Some("RE") then EcologicalRestoration
    else if key in {Some("FC"), Some("FCE"), Some("FP"), Some("FPE")} then HighEnvironmentalValue
    else if key in {Some("PR"), Some("PRA")} then RuralProduction
    else if key in {Some("AE"), Some("AEE"), Some("AF"), Some("AFE")} then AgriculturalPotential
    else if key == Some("PDU_ER") then PduEquipment
    else if key == Some("PDU_PR") then PduRuralSettlement
    else ConservationGeneral
  }

  /** `getCitizenExplanation`: `None` for a missing record and for every
      status but the three it explains; the protected-area texts take
      priority over the soil texts. */
  function CitizenExplanation(a: Option<Analysis>): (r: Option<Explanation>)
    ensures r.Some? <==> IsOutsideCdmx(a) || ShouldShowNormativeInstrument(a)
    ensures IsOutsideCdmx(a) ==>
      (r.value.InNeighbourState? <==> a.value.outsideContext.Some? && a.value.outsideContext.value.Some?)
    ensures IsOutsideCdmx(a) && a.value.outsideContext.Some? && a.value.outsideContext.value.Some? ==>
      r == Some(InNeighbourState(a.value.outsideContext.value.value))
    ensures IsUrbanSoil(a) && !a.value.isANP ==>
      r == Some(UrbanPlans(if Truthy(a.value.alcaldia) then TextOr(a.value.alcaldia) else "la alcaldía"))
    ensures IsUrbanSoil(a) ==> (r == Some(UrbanProtectedArea) <==> a.value.isANP)
    ensures IsConservationSoil(a) ==> (r == Some(ConservationProtectedArea) <==> a.value.isANP)
  {
    if a.None? then None
    else
      var x := a.value;
      if x.status == OutsideCdmx then
        if x.outsideContext.Some? && x.outsideContext.value.Some?
        then Some(InNeighbourState(x.outsideContext.value.value))
        else Some(OutsideCity)
      else if x.status == UrbanSoil then
        if x.isANP then Some(UrbanProtectedArea)
        else Some(UrbanPlans(if Truthy(x.alcaldia) then TextOr(x.alcaldia) else "la alcaldía"))
      else if x.status == ConservationSoil then
        if x.isANP then Some(ConservationProtectedArea)
        else Some(ConservationText(x.zoningKey))
      else None
  }

  /** On conservation soil without a protected area, keys of one group share
      one text, the two PDU keys have their own, and any other key gets the
      general text. */
  lemma ConservationKeyGroups(a: Analysis)
    requires a.status == ConservationSoil && !a.isANP
    ensures var r := CitizenExplanation(Some(a)).value;
      var k := a.zoningKey;
      (k in {Some("FC"), Some("FCE"), Some("FP"), Some("FPE")} <==> r == HighEnvironmentalValue)
      && (k in {Some("PR"), Some("PRA")} <==> r == RuralProduction)
      && (k in {Some("AE"), Some("AEE"), Some("AF"), Some("AFE")} <==> r == AgriculturalPotential)
      && (k == Some("RE") <==> r == EcologicalRestoration)
      && (k == Some("PDU_ER") <==> r == PduEquipment)
      && (k == Some("PDU_PR") <==> r == PduRuralSettlement)
      && (r == ConservationGeneral <==>
            k !in {Some("RE"), Some("FC"), Some("FCE"), Some("FP"), Some("FPE"), Some("PR"), Some("PRA"),
                   Some("AE"), Some("AEE"), Some("AF"), Some("AFE"), Some("PDU_ER"), Some("PDU_PR")})
  {
  }
}
