/** From the request's settings to kbplacer's options: parsePlacement and the
    settings part of NewPCB in backend/internal/kicad/kicad.go. */
module Settings {
  import opened Decimal
  import opened Json
  import opened KBPlacer
  import opened Millimetres
  import P = Preset
  import T = Text

  const SWITCHES_LIBRARY_PATH := "/footprints/com_github_perigoso_keyswitch-kicad-library/"
  const DIODE_LIBRARY_PATH := "/usr/share/kicad/footprints/"

  datatype Error =
    | Missing(field: string)
    | Invalid(field: string)
    | InvalidFootprintFormat(field: string)
    | InvalidTrackPreset(why: P.PresetError)
    | BlankInPresetPath

  predicate IsSide(s: string) {
    s == "FRONT" || s == "BACK"
  }

  function Rotation(settings: map<string, Json>, key: string): Result<int, Error> {
    if key !in settings then Err(Missing(key))
    else if !settings[key].Num? then Err(Invalid(key))
    else Ok(Trunc(settings[key].x))
  }

  /** Of the switch and the diode; a side that is no string counts as missing. */
  function Side(settings: map<string, Json>, key: string): Result<string, Error> {
    if key !in settings || !settings[key].Str? then Err(Missing(key))
    else if !IsSide(settings[key].s) then Err(Invalid(key))
    else Ok(settings[key].s)
  }

  function Number(settings: map<string, Json>, key: string, otherwise: Error): Result<real, Error> {
    if IsNum(settings, key) then Ok(settings[key].x) else Err(otherwise)
  }

  /** parsePlacement. */
  function ParsePlacement(settings: map<string, Json>, prefix: string): Result<Place, Error> {
    var (sideKey, xKey, yKey) := (prefix + "Side", prefix + "PositionX", prefix + "PositionY");
    var rotation :- Rotation(settings, prefix + "Rotation");
    :- Need(sideKey in settings, Missing(sideKey));
    :- Need(settings[sideKey].Str? && IsSide(settings[sideKey].s), Invalid(sideKey));
    :- Need(xKey in settings, Missing(xKey));
    var x :- Number(settings, xKey, Invalid(xKey));
    :- Need(yKey in settings, Missing(yKey));
    var y :- Number(settings, yKey, Invalid(yKey));
    Ok(Place(x, y, rotation, settings[sideKey].s))
  }

  /** "nickname:footprint" to a path under `library`. */
  function FootprintPath(library: string, setting: string, field: string): Result<string, Error> {
    match T.Cut(setting, ':')
    case None => Err(InvalidFootprintFormat(field))
    case Some(p) => Ok(library + p.0 + ".pretty:" + p.1)
  }

  datatype Leds = Leds(footprint: string, capacitor: string, led: Place, ledCapacitor: Place)

  const NOWHERE := Place(0.0, 0.0, 0, "")

  function ParseLeds(settings: map<string, Json>, skipLedDecoupling: bool): Result<Leds, Error> {
    var (ledSetting, capacitorSetting) := (StrAt(settings, "ledFootprint"), StrAt(settings, "ledCapacitorFootprint"));
    :- Need(ledSetting != "", Missing("ledFootprint"));
    var footprint :- FootprintPath(DIODE_LIBRARY_PATH, ledSetting, "ledFootprint");
    :- Need(skipLedDecoupling || capacitorSetting != "", Missing("ledCapacitorFootprint"));
    var capacitor :- if skipLedDecoupling then Ok("") else
      FootprintPath(DIODE_LIBRARY_PATH, capacitorSetting, "ledCapacitorFootprint");
    var led :- ParsePlacement(settings, "led");
    var ledCapacitor :- if skipLedDecoupling then Ok(NOWHERE) else ParsePlacement(settings, "ledCapacitor");
    Ok(Leds(footprint, capacitor, led, ledCapacitor))
  }

  datatype Board = Board(switchRotation: int, switchSide: string, diode: Place, preset: Option<map<string, Json>>)

  function ParseBoard(settings: map<string, Json>): Result<Board, Error> {
    var switchRotation :- Rotation(settings, "switchRotation");
    var switchSide :- Side(settings, "switchSide");
    var diodeRotation :- Rotation(settings, "diodeRotation");
    var diodeSide :- Side(settings, "diodeSide");
    var x :- Number(settings, "diodePositionX", Missing("diodePositionX"));
    var y :- Number(settings, "diodePositionY", Missing("diodePositionY"));
    match P.ParseTrackPreset(settings)
    case Err(why) => Err(InvalidTrackPreset(why))
    case Ok(preset) => Ok(Board(switchRotation, switchSide, Place(x, y, diodeRotation, diodeSide), preset))
  }

  /** Paths NewPCB makes up beside the settings. */
  datatype Paths = Paths(kicad3rdParty: string, pcb: string, layout: string, logDir: string)

  predicate HasBlank(path: string) {
    ' ' in path || '\t' in path || '\n' in path
  }

  function PresetPath(paths: Paths): string {
    paths.logDir + "/switch-preset.json"
  }

  /** NewPCB's reading of the settings, in its order of checks. */
  function ParseOptions(settings: map<string, Json>, paths: Paths): Result<Options, Error> {
    var createLedSchFile := BoolAt(settings, "createLedSchFile");
    var createLedPcbElements := createLedSchFile;
    var skipLedDecoupling := BoolAt(settings, "skipLedDecoupling");
    var switches := paths.kicad3rdParty + SWITCHES_LIBRARY_PATH;
    var stabilizer := StrAt(settings, "stabilizerFootprint");
    var board :- ParseBoard(settings);
    var switchFootprint :- FootprintPath(switches, StrAt(settings, "switchFootprint"), "switchFootprint");
    var diodeFootprint :- FootprintPath(DIODE_LIBRARY_PATH, StrAt(settings, "diodeFootprint"), "diodeFootprint");
    var stabilizerFootprint :- if stabilizer == "" then Ok("") else
      FootprintPath(switches, stabilizer, "stabilizerFootprint");
    var leds :- if createLedSchFile then ParseLeds(settings, skipLedDecoupling) else
      Ok(Leds("", "", NOWHERE, NOWHERE));
    var routing := StrAt(settings, "routing");
    var routeSwitchesWithDiodes := routing == "Switch-Diode only" || routing == "Full";
    var useTrackPreset := board.preset.Some? && routeSwitchesWithDiodes;
    :- Need(!useTrackPreset || !HasBlank(PresetPath(paths)), BlankInPresetPath);
    Ok(Options(paths.pcb, paths.layout, routeSwitchesWithDiodes, routing == "Full",
               switchFootprint, diodeFootprint, stabilizerFootprint, board.switchRotation, board.switchSide,
               board.diode, if useTrackPreset then PresetPath(paths) else "",
               createLedPcbElements, createLedSchFile, leds.footprint, leds.capacitor, skipLedDecoupling,
               leds.led, leds.ledCapacitor))
  }

  /* ------------------------------------------- which settings are accepted */

  predicate Says(settings: map<string, Json>, key: string, value: Json) {
    key in settings && settings[key] == value
  }

  predicate IsNumber(settings: map<string, Json>, key: string) {
    key in settings && settings[key].Num?
  }

  predicate IsText(settings: map<string, Json>, key: string) {
    key in settings && settings[key].Str?
  }

  predicate IsSideAt(settings: map<string, Json>, key: string) {
    Says(settings, key, Str("FRONT")) || Says(settings, key, Str("BACK"))
  }

  predicate ValidPlacement(settings: map<string, Json>, prefix: string) {
    && IsNumber(settings, prefix + "Rotation") && IsSideAt(settings, prefix + "Side")
    && IsNumber(settings, prefix + "PositionX") && IsNumber(settings, prefix + "PositionY")
  }

  /** "nickname:footprint". */
  predicate IsFootprint(settings: map<string, Json>, key: string) {
    IsText(settings, key) && ':' in settings[key].s
  }

  predicate NoText(settings: map<string, Json>, key: string) {
    !IsText(settings, key) || settings[key].s == ""
  }

  predicate HasPreset(settings: map<string, Json>) {
    "trackPreset" in settings && !settings["trackPreset"].Null?
  }

  predicate ValidPreset(settings: map<string, Json>) {
    HasPreset(settings) ==>
      && settings["trackPreset"].Obj?
      && var preset := settings["trackPreset"].fields;
         && "diodes" !in preset
         && ("items" in preset && preset["items"].Arr? ==> |preset["items"].items| <= 500)
  }

  predicate HasLeds(settings: map<string, Json>) {
    Says(settings, "createLedSchFile", Bool(true))
  }

  predicate SkipsCapacitors(settings: map<string, Json>) {
    Says(settings, "skipLedDecoupling", Bool(true))
  }

  predicate ValidLeds(settings: map<string, Json>) {
    var skip := SkipsCapacitors(settings);
    && IsFootprint(settings, "ledFootprint") && (skip || IsFootprint(settings, "ledCapacitorFootprint"))
    && ValidPlacement(settings, "led") && (skip || ValidPlacement(settings, "ledCapacitor"))
  }

  predicate ValidBoard(settings: map<string, Json>) {
    && IsNumber(settings, "switchRotation") && IsSideAt(settings, "switchSide")
    && ValidPlacement(settings, "diode") && ValidPreset(settings)
  }

  predicate DiodesAreRouted(settings: map<string, Json>) {
    Says(settings, "routing", Str("Switch-Diode only")) || Says(settings, "routing", Str("Full"))
  }

  predicate UsesPreset(settings: map<string, Json>) {
    HasPreset(settings) && DiodesAreRouted(settings)
  }

  predicate Valid(settings: map<string, Json>, paths: Paths) {
    && ValidBoard(settings)
    && IsFootprint(settings, "switchFootprint") && IsFootprint(settings, "diodeFootprint")
    && (NoText(settings, "stabilizerFootprint") || IsFootprint(settings, "stabilizerFootprint"))
    && (HasLeds(settings) ==> ValidLeds(settings))
    && (UsesPreset(settings) ==> ' ' !in paths.logDir && '\t' !in paths.logDir && '\n' !in paths.logDir)
  }

  /** What the parser reads is what the settings say. */
  lemma ReadsWhatIsSaid(settings: map<string, Json>, key: string)
    ensures StrAt(settings, key) == if IsText(settings, key) then settings[key].s else ""
    ensures forall text :: text != "" ==> (StrAt(settings, key) == text <==> Says(settings, key, Str(text)))
    ensures BoolAt(settings, key) <==> Says(settings, key, Bool(true))
    ensures IsNum(settings, key) <==> IsNumber(settings, key)
    ensures (IsText(settings, key) && IsSide(settings[key].s)) <==> IsSideAt(settings, key)
    ensures ':' in StrAt(settings, key) <==> IsFootprint(settings, key)
    ensures StrAt(settings, key) == "" <==> NoText(settings, key)
  {
  }

  lemma PresetPathIsBlank(paths: Paths)
    ensures HasBlank(PresetPath(paths)) <==> ' ' in paths.logDir || '\t' in paths.logDir || '\n' in paths.logDir
  {
    var path, file := PresetPath(paths), "/switch-preset.json";
    forall c: char | c !in file
      ensures c in path <==> c in paths.logDir
    {
    }
  }

  function PlaceAt(settings: map<string, Json>, prefix: string): Place
    requires ValidPlacement(settings, prefix)
  {
    Place(settings[prefix + "PositionX"].x, settings[prefix + "PositionY"].x,
          Trunc(settings[prefix + "Rotation"].x), settings[prefix + "Side"].s)
  }

  lemma PlacementAccepted(settings: map<string, Json>, prefix: string)
    ensures ParsePlacement(settings, prefix).Ok? <==> ValidPlacement(settings, prefix)
    ensures ValidPlacement(settings, prefix) ==> ParsePlacement(settings, prefix) == Ok(PlaceAt(settings, prefix))
  {
    hide Trunc;
  }

  function PlacementKey(prefix: string, i: nat): string
    requires i < 4
  {
    prefix + (if i == 0 then "Rotation" else if i == 1 then "Side" else if i == 2 then "PositionX" else "PositionY")
  }

  predicate FieldIsValid(settings: map<string, Json>, prefix: string, i: nat)
    requires i < 4
  {
    var key := PlacementKey(prefix, i);
    if i == 1 then IsSideAt(settings, key) else IsNumber(settings, key)
  }

  /** A rejected placement's error names the first offending field, and tells an
      absent field from a bad one. */
  lemma PlacementErrorNamesFirst(settings: map<string, Json>, prefix: string) returns (i: nat)
    requires !ValidPlacement(settings, prefix)
    ensures i < 4 && !FieldIsValid(settings, prefix, i)
    ensures forall j :: 0 <= j < i ==> FieldIsValid(settings, prefix, j)
    ensures var key := PlacementKey(prefix, i);
            ParsePlacement(settings, prefix) == Err(if key in settings then Invalid(key) else Missing(key))
  {
    hide Trunc;
    i := if !FieldIsValid(settings, prefix, 0) then 0
         else if !FieldIsValid(settings, prefix, 1) then 1
         else if !FieldIsValid(settings, prefix, 2) then 2
         else 3;
    assert PlacementKey(prefix, 0) == prefix + "Rotation" && PlacementKey(prefix, 1) == prefix + "Side";
    assert PlacementKey(prefix, 2) == prefix + "PositionX" && PlacementKey(prefix, 3) == prefix + "PositionY";
  }

  lemma FootprintAccepted(library: string, setting: string, field: string)
    ensures FootprintPath(library, setting, field).Ok? <==> ':' in setting
  {
    T.CutIsFirst(setting, ':');
  }

  lemma LedsAccepted(settings: map<string, Json>)
    ensures var skip := SkipsCapacitors(settings);
            var leds := ParseLeds(settings, skip);
            && (leds.Ok? <==> ValidLeds(settings))
            && (leds.Ok? ==> && leds.value.led == PlaceAt(settings, "led")
                             && (!skip ==> leds.value.ledCapacitor == PlaceAt(settings, "ledCapacitor")))
  {
    hide ParsePlacement, ValidPlacement, PlaceAt, FootprintPath, StrAt, IsFootprint, NoText, Says;
    ReadsWhatIsSaid(settings, "ledFootprint");
    ReadsWhatIsSaid(settings, "ledCapacitorFootprint");
    PlacementAccepted(settings, "led");
    PlacementAccepted(settings, "ledCapacitor");
    FootprintAccepted(DIODE_LIBRARY_PATH, StrAt(settings, "ledFootprint"), "ledFootprint");
    FootprintAccepted(DIODE_LIBRARY_PATH, StrAt(settings, "ledCapacitorFootprint"), "ledCapacitorFootprint");
  }

  lemma DiodePrefix()
    ensures "diode" + "Rotation" == "diodeRotation" && "diode" + "Side" == "diodeSide"
    ensures "diode" + "PositionX" == "diodePositionX" && "diode" + "PositionY" == "diodePositionY"
  {
  }

  lemma BoardAccepted(settings: map<string, Json>)
    ensures var board := ParseBoard(settings);
            && (board.Ok? <==> ValidBoard(settings))
            && (board.Ok? ==> && board.value.switchRotation == Trunc(settings["switchRotation"].x)
                              && board.value.switchSide == settings["switchSide"].s
                              && board.value.diode == PlaceAt(settings, "diode")
                              && (board.value.preset.Some? <==> HasPreset(settings)))
  {
    hide Trunc;
    DiodePrefix();
  }

  lemma AllRead(settings: map<string, Json>)
    ensures forall key: string ::
              && (':' in StrAt(settings, key) <==> IsFootprint(settings, key))
              && (StrAt(settings, key) == "" <==> NoText(settings, key))
    ensures BoolAt(settings, "createLedSchFile") == HasLeds(settings)
    ensures BoolAt(settings, "skipLedDecoupling") == SkipsCapacitors(settings)
    ensures StrAt(settings, "routing") in {"Switch-Diode only", "Full"} <==> DiodesAreRouted(settings)
  {
    hide StrAt, BoolAt, IsFootprint, NoText, Says;
    forall key: string {
      ReadsWhatIsSaid(settings, key);
    }
  }

  /** The order of the checks decides which error is reported, not whether the
      settings are accepted. */
  lemma AcceptsExactly(settings: map<string, Json>, paths: Paths)
    ensures ParseOptions(settings, paths).Ok? <==> Valid(settings, paths)
  {
    hide ParseBoard, ValidBoard, ParseLeds, ValidLeds, FootprintPath, HasBlank, PresetPath, HasPreset, StrAt, BoolAt,
      Says, IsFootprint, NoText;
    BoardAccepted(settings);
    LedsAccepted(settings);
    AllRead(settings);
    PresetPathIsBlank(paths);
    var switches := paths.kicad3rdParty + SWITCHES_LIBRARY_PATH;
    FootprintAccepted(switches, StrAt(settings, "switchFootprint"), "switchFootprint");
    FootprintAccepted(DIODE_LIBRARY_PATH, StrAt(settings, "diodeFootprint"), "diodeFootprint");
    FootprintAccepted(switches, StrAt(settings, "stabilizerFootprint"), "stabilizerFootprint");
  }

  /* -------------------------------------------- which error is reported */

  /** A condition and the error for settings that do not meet it. */
  type Rule = (bool, Error)

  ghost predicate FirstBroken(rules: seq<Rule>, e: Error) {
    exists i :: 0 <= i < |rules| && !rules[i].0 && rules[i].1 == e && forall j :: 0 <= j < i ==> rules[j].0
  }

  function Failure<T>(r: Result<T, Error>): Option<Error> {
    if r.Ok? then None else Some(r.error)
  }

  /** The error is that of the first rule broken; there is none if all are met. */
  ghost predicate Obeys(failure: Option<Error>, rules: seq<Rule>) {
    if failure.None? then forall rule <- rules :: rule.0 else FirstBroken(rules, failure.value)
  }

  function FirstOf(f: Option<Error>, g: Option<Error>): Option<Error> {
    if f.Some? then f else g
  }

  lemma ObeysThen(f: Option<Error>, a: seq<Rule>, g: Option<Error>, b: seq<Rule>)
    requires Obeys(f, a) && Obeys(g, b)
    ensures Obeys(FirstOf(f, g), a + b)
  {
    if f.Some? {
      BrokenBefore(a, b, f.value);
    } else if g.Some? {
      BrokenAfter(a, b, g.value);
    }
  }

  lemma BrokenBefore(a: seq<Rule>, b: seq<Rule>, e: Error)
    requires FirstBroken(a, e)
    ensures FirstBroken(a + b, e)
  {
    var i :| 0 <= i < |a| && !a[i].0 && a[i].1 == e && forall j :: 0 <= j < i ==> a[j].0;
    assert (a + b)[i] == a[i];
  }

  lemma BrokenAfter(a: seq<Rule>, b: seq<Rule>, e: Error)
    requires (forall rule <- a :: rule.0) && FirstBroken(b, e)
    ensures FirstBroken(a + b, e)
  {
    var i :| 0 <= i < |b| && !b[i].0 && b[i].1 == e && forall j :: 0 <= j < i ==> b[j].0;
    assert (a + b)[|a| + i] == b[i];
    assert forall j :: 0 <= j < |a| ==> a[j] in a;
  }

  function RotationRules(settings: map<string, Json>, key: string): seq<Rule> {
    [(key in settings, Missing(key)), (IsNumber(settings, key), Invalid(key))]
  }

  function SideRules(settings: map<string, Json>, key: string): seq<Rule> {
    [(IsText(settings, key), Missing(key)), (IsSideAt(settings, key), Invalid(key))]
  }

  function NumberRules(settings: map<string, Json>, key: string): seq<Rule> {
    [(IsNumber(settings, key), Missing(key))]
  }

  function PresetRules(settings: map<string, Json>): seq<Rule> {
    var given := HasPreset(settings);
    var isObject := given && settings["trackPreset"].Obj?;
    [(given ==> isObject, InvalidTrackPreset(P.NotAnObject)),
     (isObject ==> "diodes" !in settings["trackPreset"].fields, InvalidTrackPreset(P.DiodesSet)),
     (isObject && IsList(settings["trackPreset"].fields, "items") ==>
        |settings["trackPreset"].fields["items"].items| <= 500, InvalidTrackPreset(P.TooManyItems))]
  }

  predicate IsList(fields: map<string, Json>, key: string) {
    key in fields && fields[key].Arr?
  }

  function BoardRules(settings: map<string, Json>): seq<Rule> {
    RotationRules(settings, "switchRotation") + SideRules(settings, "switchSide")
    + RotationRules(settings, "diodeRotation") + SideRules(settings, "diodeSide")
    + NumberRules(settings, "diodePositionX") + NumberRules(settings, "diodePositionY") + PresetRules(settings)
  }

  function PlacementRules(settings: map<string, Json>, prefix: string): seq<Rule> {
    var (side, x, y) := (prefix + "Side", prefix + "PositionX", prefix + "PositionY");
    RotationRules(settings, prefix + "Rotation")
    + [(side in settings, Missing(side)), (IsSideAt(settings, side), Invalid(side)),
       (x in settings, Missing(x)), (IsNumber(settings, x), Invalid(x)),
       (y in settings, Missing(y)), (IsNumber(settings, y), Invalid(y))]
  }

  function FootprintRules(settings: map<string, Json>, key: string, needed: bool): seq<Rule> {
    [(!needed || IsFootprint(settings, key), InvalidFootprintFormat(key))]
  }

  function LedRules(settings: map<string, Json>): seq<Rule> {
    var capacitors := !SkipsCapacitors(settings);
    [(!NoText(settings, "ledFootprint"), Missing("ledFootprint"))]
    + FootprintRules(settings, "ledFootprint", true)
    + [(!capacitors || !NoText(settings, "ledCapacitorFootprint"), Missing("ledCapacitorFootprint"))]
    + FootprintRules(settings, "ledCapacitorFootprint", capacitors)
    + PlacementRules(settings, "led")
    + (if capacitors then PlacementRules(settings, "ledCapacitor") else [])
  }

  /** All rules, in the order in which NewPCB looks at the settings. */
  function Rules(settings: map<string, Json>, paths: Paths): seq<Rule> {
    BoardRules(settings)
    + FootprintRules(settings, "switchFootprint", true)
    + FootprintRules(settings, "diodeFootprint", true)
    + FootprintRules(settings, "stabilizerFootprint", !NoText(settings, "stabilizerFootprint"))
    + (if HasLeds(settings) then LedRules(settings) else [])
    + [(UsesPreset(settings) ==> ' ' !in paths.logDir && '\t' !in paths.logDir && '\n' !in paths.logDir,
        BlankInPresetPath)]
  }

  lemma ObeysOne(f: Option<Error>, rule: Rule)
    requires if f.None? then rule.0 else !rule.0 && rule.1 == f.value
    ensures Obeys(f, [rule])
  {
    assert [rule][0] == rule;
  }

  lemma ObeysTwo(f: Option<Error>, x: Rule, y: Rule)
    requires if f.None? then x.0 && y.0 else if x.0 then !y.0 && y.1 == f.value else x.1 == f.value
    ensures Obeys(f, [x, y])
  {
    assert [x, y][0] == x && [x, y][1] == y;
  }

  lemma RotationObeys(settings: map<string, Json>, key: string)
    ensures Obeys(Failure(Rotation(settings, key)), RotationRules(settings, key))
  {
    hide Obeys, Trunc;
    ObeysTwo(Failure(Rotation(settings, key)),
             (key in settings, Missing(key)), (IsNumber(settings, key), Invalid(key)));
  }

  lemma SideObeys(settings: map<string, Json>, key: string)
    ensures Obeys(Failure(Side(settings, key)), SideRules(settings, key))
  {
    hide Obeys;
    ObeysTwo(Failure(Side(settings, key)),
             (IsText(settings, key), Missing(key)), (IsSideAt(settings, key), Invalid(key)));
  }

  lemma NumberObeys(settings: map<string, Json>, key: string)
    ensures Obeys(Failure(Number(settings, key, Missing(key))), NumberRules(settings, key))
  {
    hide Obeys;
    ObeysOne(Failure(Number(settings, key, Missing(key))), (IsNumber(settings, key), Missing(key)));
  }

  function PresetFailure(settings: map<string, Json>): Option<Error> {
    match P.ParseTrackPreset(settings)
    case Err(why) => Some(InvalidTrackPreset(why))
    case Ok(_) => None
  }

  lemma PresetObeys(settings: map<string, Json>)
    ensures Obeys(PresetFailure(settings), PresetRules(settings))
  {
    var rules := PresetRules(settings);
    var f := PresetFailure(settings);
    assert f == if !rules[0].0 then Some(rules[0].1) else if !rules[1].0 then Some(rules[1].1)
                else if !rules[2].0 then Some(rules[2].1) else None;
  }

  lemma BoardObeys(settings: map<string, Json>)
    ensures Obeys(Failure(ParseBoard(settings)), BoardRules(settings))
  {
    hide Obeys, Rotation, Side, Number, P.ParseTrackPreset, RotationRules, SideRules, NumberRules, PresetRules;
    RotationObeys(settings, "switchRotation");
    SideObeys(settings, "switchSide");
    RotationObeys(settings, "diodeRotation");
    SideObeys(settings, "diodeSide");
    NumberObeys(settings, "diodePositionX");
    NumberObeys(settings, "diodePositionY");
    PresetObeys(settings);
    var f, a := Failure(Rotation(settings, "switchRotation")), RotationRules(settings, "switchRotation");
    ObeysThen(f, a, Failure(Side(settings, "switchSide")), SideRules(settings, "switchSide"));
    f, a := FirstOf(f, Failure(Side(settings, "switchSide"))), a + SideRules(settings, "switchSide");
    ObeysThen(f, a, Failure(Rotation(settings, "diodeRotation")), RotationRules(settings, "diodeRotation"));
    f, a := FirstOf(f, Failure(Rotation(settings, "diodeRotation"))), a + RotationRules(settings, "diodeRotation");
    ObeysThen(f, a, Failure(Side(settings, "diodeSide")), SideRules(settings, "diodeSide"));
    f, a := FirstOf(f, Failure(Side(settings, "diodeSide"))), a + SideRules(settings, "diodeSide");
    var x := Failure(Number(settings, "diodePositionX", Missing("diodePositionX")));
    ObeysThen(f, a, x, NumberRules(settings, "diodePositionX"));
    f, a := FirstOf(f, x), a + NumberRules(settings, "diodePositionX");
    var y := Failure(Number(settings, "diodePositionY", Missing("diodePositionY")));
    ObeysThen(f, a, y, NumberRules(settings, "diodePositionY"));
    f, a := FirstOf(f, y), a + NumberRules(settings, "diodePositionY");
    ObeysThen(f, a, PresetFailure(settings), PresetRules(settings));
  }

  lemma PlacementObeys(settings: map<string, Json>, prefix: string)
    ensures Obeys(Failure(ParsePlacement(settings, prefix)), PlacementRules(settings, prefix))
  {
    hide Trunc;
    var rules, f := PlacementRules(settings, prefix), Failure(ParsePlacement(settings, prefix));
    assert |rules| == 8;
    assert f == if !rules[0].0 then Some(rules[0].1) else if !rules[1].0 then Some(rules[1].1)
                else if !rules[2].0 then Some(rules[2].1) else if !rules[3].0 then Some(rules[3].1)
                else if !rules[4].0 then Some(rules[4].1) else if !rules[5].0 then Some(rules[5].1)
                else if !rules[6].0 then Some(rules[6].1) else if !rules[7].0 then Some(rules[7].1) else None;
  }

  lemma FootprintObeys(settings: map<string, Json>, library: string, key: string, needed: bool)
    ensures Obeys(if needed then Failure(FootprintPath(library, StrAt(settings, key), key)) else None,
                  FootprintRules(settings, key, needed))
  {
    hide Obeys, IsFootprint;
    FootprintAccepted(library, StrAt(settings, key), key);
    ReadsWhatIsSaid(settings, key);
    ObeysOne(if needed then Failure(FootprintPath(library, StrAt(settings, key), key)) else None,
             (!needed || IsFootprint(settings, key), InvalidFootprintFormat(key)));
  }

  function TextFailure(settings: map<string, Json>, key: string, needed: bool): Option<Error> {
    if needed && StrAt(settings, key) == "" then Some(Missing(key)) else None
  }

  lemma TextObeys(settings: map<string, Json>, key: string, needed: bool)
    ensures Obeys(TextFailure(settings, key, needed), [(!needed || !NoText(settings, key), Missing(key))])
  {
    hide Obeys;
    ObeysOne(TextFailure(settings, key, needed), (!needed || !NoText(settings, key), Missing(key)));
  }

  lemma NothingObeys()
    ensures Obeys(None, [])
  {
  }

  lemma LedsObey(settings: map<string, Json>)
    ensures Obeys(Failure(ParseLeds(settings, SkipsCapacitors(settings))), LedRules(settings))
  {
    hide Obeys, ParsePlacement, FootprintPath, PlacementRules, FootprintRules, StrAt, NoText;
    NothingObeys();
    var capacitors := !SkipsCapacitors(settings);
    var led, capacitor := "ledFootprint", "ledCapacitorFootprint";
    TextObeys(settings, led, true);
    TextObeys(settings, capacitor, capacitors);
    FootprintObeys(settings, DIODE_LIBRARY_PATH, led, true);
    FootprintObeys(settings, DIODE_LIBRARY_PATH, capacitor, capacitors);
    PlacementObeys(settings, "led");
    PlacementObeys(settings, "ledCapacitor");
    var f, a := TextFailure(settings, led, true), [(!NoText(settings, led), Missing(led))];
    var g := Failure(FootprintPath(DIODE_LIBRARY_PATH, StrAt(settings, led), led));
    ObeysThen(f, a, g, FootprintRules(settings, led, true));
    f, a := FirstOf(f, g), a + FootprintRules(settings, led, true);
    var rule := (!capacitors || !NoText(settings, capacitor), Missing(capacitor));
    ObeysThen(f, a, TextFailure(settings, capacitor, capacitors), [rule]);
    f, a := FirstOf(f, TextFailure(settings, capacitor, capacitors)), a + [rule];
    g := if capacitors then Failure(FootprintPath(DIODE_LIBRARY_PATH, StrAt(settings, capacitor), capacitor)) else None;
    ObeysThen(f, a, g, FootprintRules(settings, capacitor, capacitors));
    f, a := FirstOf(f, g), a + FootprintRules(settings, capacitor, capacitors);
    ObeysThen(f, a, Failure(ParsePlacement(settings, "led")), PlacementRules(settings, "led"));
    f, a := FirstOf(f, Failure(ParsePlacement(settings, "led"))), a + PlacementRules(settings, "led");
    g := if capacitors then Failure(ParsePlacement(settings, "ledCapacitor")) else None;
    ObeysThen(f, a, g, if capacitors then PlacementRules(settings, "ledCapacitor") else []);
  }

  /** Settings are accepted if and only if they meet all rules, and the error for
      others is that of the first one they break. */
  lemma FirstErrorIsReported(settings: map<string, Json>, paths: Paths)
    ensures Obeys(Failure(ParseOptions(settings, paths)), Rules(settings, paths))
  {
    hide Obeys, ParseBoard, ParseLeds, FootprintPath, BoardRules, LedRules, FootprintRules, StrAt, BoolAt, NoText,
      Says, IsFootprint, HasBlank, PresetPath, HasPreset;
    NothingObeys();
    AllRead(settings);
    PresetPathIsBlank(paths);
    BoardAccepted(settings);
    BoardObeys(settings);
    LedsObey(settings);
    var switches := paths.kicad3rdParty + SWITCHES_LIBRARY_PATH;
    var stabilizer := !NoText(settings, "stabilizerFootprint");
    FootprintObeys(settings, switches, "switchFootprint", true);
    FootprintObeys(settings, DIODE_LIBRARY_PATH, "diodeFootprint", true);
    FootprintObeys(settings, switches, "stabilizerFootprint", stabilizer);
    var f, a := Failure(ParseBoard(settings)), BoardRules(settings);
    var g := Failure(FootprintPath(switches, StrAt(settings, "switchFootprint"), "switchFootprint"));
    ObeysThen(f, a, g, FootprintRules(settings, "switchFootprint", true));
    f, a := FirstOf(f, g), a + FootprintRules(settings, "switchFootprint", true);
    g := Failure(FootprintPath(DIODE_LIBRARY_PATH, StrAt(settings, "diodeFootprint"), "diodeFootprint"));
    ObeysThen(f, a, g, FootprintRules(settings, "diodeFootprint", true));
    f, a := FirstOf(f, g), a + FootprintRules(settings, "diodeFootprint", true);
    g := if !stabilizer then None
         else Failure(FootprintPath(switches, StrAt(settings, "stabilizerFootprint"), "stabilizerFootprint"));
    ObeysThen(f, a, g, FootprintRules(settings, "stabilizerFootprint", stabilizer));
    f, a := FirstOf(f, g), a + FootprintRules(settings, "stabilizerFootprint", stabilizer);
    g := if HasLeds(settings) then Failure(ParseLeds(settings, SkipsCapacitors(settings))) else None;
    ObeysThen(f, a, g, if HasLeds(settings) then LedRules(settings) else []);
    f, a := FirstOf(f, g), a + (if HasLeds(settings) then LedRules(settings) else []);
    LastRuleObeyed(settings, paths, f, a);
  }

  lemma LastRuleObeyed(settings: map<string, Json>, paths: Paths, f: Option<Error>, a: seq<Rule>)
    requires Obeys(f, a)
    ensures Obeys(FirstOf(f, if UsesPreset(settings) && HasBlank(PresetPath(paths)) then Some(BlankInPresetPath)
                             else None),
                  a + [(UsesPreset(settings) ==>
                          ' ' !in paths.logDir && '\t' !in paths.logDir && '\n' !in paths.logDir, BlankInPresetPath)])
  {
    hide Obeys, HasBlank, PresetPath, UsesPreset;
    PresetPathIsBlank(paths);
    var g := if UsesPreset(settings) && HasBlank(PresetPath(paths)) then Some(BlankInPresetPath) else None;
    var rule := (UsesPreset(settings) ==> ' ' !in paths.logDir && '\t' !in paths.logDir && '\n' !in paths.logDir,
                 BlankInPresetPath);
    ObeysOne(g, rule);
    ObeysThen(f, a, g, [rule]);
  }

  /* ------------------------------------- what kbplacer is told about them */

  /** `path` is where the footprint of a "nickname:footprint" setting lies. */
  ghost predicate LiesAt(path: string, library: string, setting: string) {
    exists nickname, footprint ::
      && ':' !in nickname && setting == nickname + [':'] + footprint
      && path == library + nickname + ".pretty:" + footprint
  }

  ghost predicate BoardTranslated(settings: map<string, Json>, paths: Paths, job: Job)
    requires Valid(settings, paths)
  {
    && job.pcbPath == paths.pcb && job.layoutPath == paths.layout
    && job.routeSwitchesWithDiodes == DiodesAreRouted(settings)
    && job.routeRowsAndColumns == Says(settings, "routing", Str("Full"))
    && job.switchRotation == Trunc(settings["switchRotation"].x) && job.switchSide == settings["switchSide"].s
    && job.diode == (if UsesPreset(settings) then FromPreset(paths.logDir + "/switch-preset.json")
                     else AtPlace(ElementAt("D{}", PlaceAt(settings, "diode"))))
  }

  /** LEDs are on the board if and only if they are in the schematic. */
  ghost predicate LedsTranslated(settings: map<string, Json>, paths: Paths, job: Job)
    requires Valid(settings, paths)
  {
    var leds, skip := HasLeds(settings), SkipsCapacitors(settings);
    && job.ledPcb == job.ledSch == leds
    && job.skipLedDecoupling == (leds && skip)
    && job.elements
       == (if NoText(settings, "stabilizerFootprint") then []
           else [Element("ST{}", 0, 0, 0, settings["switchSide"].s)])
          + (if leds then [ElementAt("LED{}", PlaceAt(settings, "led"))] else [])
          + (if leds && !skip then [ElementAt("C{}", PlaceAt(settings, "ledCapacitor"))] else [])
  }

  ghost predicate FootprintsTranslated(settings: map<string, Json>, paths: Paths, job: Job)
    requires Valid(settings, paths)
  {
    var switches := paths.kicad3rdParty + "/footprints/com_github_perigoso_keyswitch-kicad-library/";
    var kicad := "/usr/share/kicad/footprints/";
    var leds, skip := HasLeds(settings), SkipsCapacitors(settings);
    && LiesAt(job.switchFootprint, switches, settings["switchFootprint"].s)
    && LiesAt(job.diodeFootprint, kicad, settings["diodeFootprint"].s)
    && (if NoText(settings, "stabilizerFootprint") then job.stabilizerFootprint.None?
        else && job.stabilizerFootprint.Some?
             && LiesAt(job.stabilizerFootprint.value, switches, settings["stabilizerFootprint"].s))
    && (if !leds then job.ledFootprint.None?
        else job.ledFootprint.Some? && LiesAt(job.ledFootprint.value, kicad, settings["ledFootprint"].s))
    && (if !leds || skip then job.ledCapacitorFootprint.None?
        else && job.ledCapacitorFootprint.Some?
             && LiesAt(job.ledCapacitorFootprint.value, kicad, settings["ledCapacitorFootprint"].s))
  }

  lemma FootprintLies(library: string, setting: string, field: string)
    requires ':' in setting
    ensures var r := FootprintPath(library, setting, field);
            r.Ok? && LiesAt(r.value, library, setting) && r.value != ""
  {
    T.CutIsFirst(setting, ':');
  }

  lemma SidesArePlain(settings: map<string, Json>, prefix: string)
    requires ValidPlacement(settings, prefix)
    ensures Plain(PlaceAt(settings, prefix).side)
  {
    hide Trunc;
  }

  lemma OptionsRead(settings: map<string, Json>, paths: Paths, opts: Options)
    requires Valid(settings, paths) && ParseOptions(settings, paths) == Ok(opts)
    ensures var leds, skip := HasLeds(settings), SkipsCapacitors(settings);
            && opts.pcbPath == paths.pcb && opts.layoutPath == paths.layout
            && opts.routeSwitchesWithDiodes == DiodesAreRouted(settings)
            && opts.routeRowsAndColumns == Says(settings, "routing", Str("Full"))
            && opts.switchRotation == Trunc(settings["switchRotation"].x) && opts.switchSide == settings["switchSide"].s
            && opts.diode == PlaceAt(settings, "diode")
            && opts.diodePresetPath == (if UsesPreset(settings) then PresetPath(paths) else "")
            && opts.createLedPcbElements == opts.createLedSchFile == leds && opts.skipLedDecoupling == skip
            && (leds ==> opts.led == PlaceAt(settings, "led"))
            && (leds && !skip ==> opts.ledCapacitor == PlaceAt(settings, "ledCapacitor"))
  {
    hide ParseBoard, ParseLeds, FootprintPath, HasBlank, PresetPath, HasPreset, PlaceAt, ValidPlacement,
      Trunc, StrAt, BoolAt, Says, IsFootprint, NoText;
    BoardAccepted(settings);
    LedsAccepted(settings);
    AllRead(settings);
    ReadsWhatIsSaid(settings, "routing");
  }

  lemma LedFootprintsRead(settings: map<string, Json>)
    requires ValidLeds(settings)
    ensures var skip := SkipsCapacitors(settings);
            var r := ParseLeds(settings, skip);
            && r.Ok?
            && LiesAt(r.value.footprint, DIODE_LIBRARY_PATH, settings["ledFootprint"].s) && r.value.footprint != ""
            && (!skip ==>
                  && LiesAt(r.value.capacitor, DIODE_LIBRARY_PATH, settings["ledCapacitorFootprint"].s)
                  && r.value.capacitor != "")
  {
    hide ParsePlacement, ValidPlacement, PlaceAt, FootprintPath, LiesAt;
    LedsAccepted(settings);
    FootprintLies(DIODE_LIBRARY_PATH, StrAt(settings, "ledFootprint"), "ledFootprint");
    if !SkipsCapacitors(settings) {
      FootprintLies(DIODE_LIBRARY_PATH, StrAt(settings, "ledCapacitorFootprint"), "ledCapacitorFootprint");
    }
  }

  lemma FootprintsRead(settings: map<string, Json>, paths: Paths, opts: Options)
    requires Valid(settings, paths) && ParseOptions(settings, paths) == Ok(opts)
    ensures FootprintsTranslated(settings, paths, Normalised(opts))
  {
    hide ParseBoard, ValidBoard, ParseLeds, ValidLeds, FootprintPath, HasBlank, PresetPath, HasPreset,
      LiesAt, BoolAt;
    AllRead(settings);
    var switches := paths.kicad3rdParty + SWITCHES_LIBRARY_PATH;
    var stabilizer := StrAt(settings, "stabilizerFootprint");
    FootprintLies(switches, StrAt(settings, "switchFootprint"), "switchFootprint");
    FootprintLies(DIODE_LIBRARY_PATH, StrAt(settings, "diodeFootprint"), "diodeFootprint");
    if stabilizer != "" {
      FootprintLies(switches, stabilizer, "stabilizerFootprint");
    }
    if HasLeds(settings) {
      LedFootprintsRead(settings);
    }
  }

  lemma NoBlank(path: string)
    ensures !HasBlank(path) ==> ' ' !in path
  {
  }

  lemma AcceptedIsWellFormed(settings: map<string, Json>, paths: Paths, opts: Options)
    requires Valid(settings, paths) && ParseOptions(settings, paths) == Ok(opts)
    ensures WellFormed(opts)
  {
    hide ParseOptions, PlaceAt, Trunc, ValidPlacement, PresetPath, HasBlank, HasPreset, IsFootprint, NoText;
    OptionsRead(settings, paths, opts);
    PresetPathIsBlank(paths);
    NoBlank(PresetPath(paths));
    SidesArePlain(settings, "diode");
    if HasLeds(settings) {
      SidesArePlain(settings, "led");
      if !SkipsCapacitors(settings) {
        SidesArePlain(settings, "ledCapacitor");
      }
    }
  }

  lemma PresetPathIsNotEmpty(paths: Paths)
    ensures PresetPath(paths) == paths.logDir + "/switch-preset.json" != ""
  {
  }

  /** Accepted settings survive: a decoder that knows which options take a value
      gets back from the command line what the settings say. */
  lemma AcceptedSettingsSurvive(settings: map<string, Json>, paths: Paths, opts: Options)
    requires ParseOptions(settings, paths) == Ok(opts)
    ensures Valid(settings, paths) && Decode(Args(opts)).Some?
    ensures var job := Decode(Args(opts)).value;
            && BoardTranslated(settings, paths, job)
            && LedsTranslated(settings, paths, job)
            && FootprintsTranslated(settings, paths, job)
  {
    hide ParseOptions, Valid, Args, Decode, WellFormed, FootprintsTranslated, PlaceAt, ElementAt, PresetPath,
      UsesPreset, Trunc, NoText, Says;
    AcceptsExactly(settings, paths);
    AcceptedIsWellFormed(settings, paths, opts);
    ArgsRoundTrip(opts);
    OptionsRead(settings, paths, opts);
    FootprintsRead(settings, paths, opts);
    PresetPathIsNotEmpty(paths);
    StabilizerRead(settings, paths, opts);
  }

  lemma StabilizerRead(settings: map<string, Json>, paths: Paths, opts: Options)
    requires Valid(settings, paths) && ParseOptions(settings, paths) == Ok(opts)
    ensures opts.stabilizerFootprint == "" <==> NoText(settings, "stabilizerFootprint")
  {
    hide Valid, ParseOptions;
    FootprintsRead(settings, paths, opts);
  }
}
