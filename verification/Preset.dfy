/** Switch-diode track presets: backend/internal/kicad/preset.go. */
module Preset {
  import opened Decimal
  import opened Json
  import opened KBPlacer
  import opened Millimetres

  const MAX_ITEMS := 500

  datatype PresetError = NotAnObject | DiodesSet | TooManyItems

  /** parseTrackPreset. */
  function ParseTrackPreset(settings: map<string, Json>): Result<Option<map<string, Json>>, PresetError> {
    if "trackPreset" !in settings || settings["trackPreset"].Null? then Ok(None)
    else
      var raw := settings["trackPreset"];
      :- Need(raw.Obj?, NotAnObject);
      :- Need("diodes" !in raw.fields, DiodesSet);
      var tooMany := "items" in raw.fields && raw.fields["items"].Arr? && |raw.fields["items"].items| > MAX_ITEMS;
      :- Need(!tooMany, TooManyItems);
      Ok(Some(raw.fields))
  }

  /** A preset goes through untouched or not at all. */
  lemma PresetPassesThrough(settings: map<string, Json>)
    ensures var r := ParseTrackPreset(settings);
            && (r == Ok(None) <==> "trackPreset" !in settings || settings["trackPreset"].Null?)
            && (r.Ok? && r.value.Some? ==> settings["trackPreset"] == Obj(r.value.value) && "diodes" !in r.value.value)
  {
  }

  function SideToLayer(side: string): string {
    if side == "BACK" then "B.Cu" else "F.Cu"
  }

  /** The diode of a preset file; its position is in whole nanometres. */
  datatype PresetDiode = PresetDiode(xNm: int, yNm: int, rotation: int, layer: string)
  {
    function ToJson(): Json {
      Arr([Obj(map[
        "position" := Obj(map["x_nm" := Num(xNm as real), "y_nm" := Num(yNm as real)]),
        "orientation_deg" := Num(rotation as real),
        "layer" := Str(layer)])])
    }
  }

  /** How kbplacer reads it. */
  function IntAt(fields: map<string, Json>, key: string): Option<int> {
    if IsNum(fields, key) && fields[key].x.Floor as real == fields[key].x then Some(fields[key].x.Floor) else None
  }

  function DiodeOf(file: map<string, Json>): Option<PresetDiode> {
    if "diodes" in file && file["diodes"].Arr? && |file["diodes"].items| == 1 && file["diodes"].items[0].Obj? then
      var d := file["diodes"].items[0].fields;
      if "position" in d && d["position"].Obj? && "layer" in d && d["layer"].Str? then
        match (IntAt(d["position"].fields, "x_nm"), IntAt(d["position"].fields, "y_nm"), IntAt(d, "orientation_deg"))
        case (Some(x), Some(y), Some(r)) => Some(PresetDiode(x, y, r, d["layer"].s))
        case _ => None
      else None
    else None
  }

  /** buildSwitchPresetFile: the diode is added, everything else is as it was.
      `fl` rounds a product to a float64. */
  method BuildSwitchPresetFile(preset: map<string, Json>, diode: Place, fl: real -> real)
    returns (file: map<string, Json>)
    ensures file.Keys == preset.Keys + {"diodes"}
    ensures forall k <- preset :: k != "diodes" ==> file[k] == preset[k]
    ensures DiodeOf(file) == Some(PresetDiode(Round(fl(NM_PER_MM as real * diode.x)),
                                              Round(fl(NM_PER_MM as real * diode.y)),
                                              diode.rotation, if diode.side == "BACK" then "B.Cu" else "F.Cu"))
  {
    hide Round;
    file := map[];
    var rest := preset.Keys;
    while rest != {}
      invariant rest <= preset.Keys && file.Keys == preset.Keys - rest
      invariant forall k <- file :: file[k] == preset[k]
      decreases rest
    {
      var k :| k in rest;
      rest := rest - {k};
      file := file[k := preset[k]];
    }
    var d := PresetDiode(Round(fl(NM_PER_MM as real * diode.x)), Round(fl(NM_PER_MM as real * diode.y)),
                         diode.rotation, SideToLayer(diode.side));
    ReadBack(file, d);
    file := file["diodes" := d.ToJson()];
  }

  lemma ReadBack(file: map<string, Json>, d: PresetDiode)
    ensures DiodeOf(file["diodes" := d.ToJson()]) == Some(d)
  {
    var position := map["x_nm" := Num(d.xNm as real), "y_nm" := Num(d.yNm as real)];
    assert IntAt(position, "x_nm") == Some(d.xNm) && IntAt(position, "y_nm") == Some(d.yNm);
  }

  /** The preset file and the CUSTOM argument put the diode on the same nanometre if
      and only if both coordinates' products agree with what they are rounded to:
      below 2^52 nanometres, if no product is rounded up to a tie, or is a tie with
      an even number below it. */
  lemma PresetAgreesWithCustom(diode: Place, fl: real -> real)
    requires ' ' !in diode.side
    requires IsNearestFloat(NM_PER_MM as real * diode.x, fl(NM_PER_MM as real * diode.x))
    requires IsNearestFloat(NM_PER_MM as real * diode.y, fl(NM_PER_MM as real * diode.y))
    ensures ParseElement(Custom("D{}", diode)).Some?
    ensures var e := ParseElement(Custom("D{}", diode)).value;
            var (px, py) := (NM_PER_MM as real * diode.x, NM_PER_MM as real * diode.y);
            && e.rotation == diode.rotation && e.side == diode.side
            && (e.xNm == Round(fl(px)) && e.yNm == Round(fl(py)) <==> Agree(px, fl(px)) && Agree(py, fl(py)))
  {
    hide ParseElement, Custom, Round, HalfEven, Agree, IsNearestFloat;
    ParseCustom("D{}", diode);
    RoundingsAgree(NM_PER_MM as real * diode.x, fl(NM_PER_MM as real * diode.x));
    RoundingsAgree(NM_PER_MM as real * diode.y, fl(NM_PER_MM as real * diode.y));
  }
}
