/** The kbplacer command line of backend/internal/kicad/kicad.go
    (buildKBPlacerArgs), and a decoder that reads such command lines. */
module KBPlacer {
  import opened Decimal
  import opened Millimetres
  import T = Text

  const ENCODER_FOOTPRINT: string :=
    "/usr/share/kicad/footprints/Rotary_Encoder.pretty:RotaryEncoder_Alps_EC11E-Switch_Vertical_H20mm"

  /** Where an element goes, in millimetres from its switch. */
  datatype Place = Place(x: real, y: real, rotation: int, side: string)

  /** KBPlacerOptions. */
  datatype Options = Options(
    pcbPath: string, layoutPath: string,
    routeSwitchesWithDiodes: bool, routeRowsAndColumns: bool,
    switchFootprint: string, diodeFootprint: string, stabilizerFootprint: string,
    switchRotation: int, switchSide: string,
    diode: Place, diodePresetPath: string,
    createLedPcbElements: bool, createLedSchFile: bool,
    ledFootprint: string, ledCapacitorFootprint: string, skipLedDecoupling: bool,
    led: Place, ledCapacitor: Place)

  /* ---------------------------------------------------------- options */

  /** The options of the command line, in the order in which they can occur. */
  datatype Flag =
    | PcbFile | CreateSchFile | CreatePcbFile | SwitchFootprint | DiodeFootprint | EncoderFootprint
    | EncoderAdjustment | Layout | LayoutOffset | LogLevel | MaxKeys
    | RouteSwitches | RouteRows | Switch | Diode
    | NoStabilizers | StabilizerFootprint
    | LedFootprint | SkipLedDecoupling | LedCapacitorFootprint
    | CreateLedPcb | CreateLedSch | BundleStrategy | AdditionalElements

  const FLAGS: nat := 24

  function FlagAt(i: nat): Flag
    requires i < FLAGS
  {
    match i
    case 0 => PcbFile case 1 => CreateSchFile case 2 => CreatePcbFile case 3 => SwitchFootprint
    case 4 => DiodeFootprint case 5 => EncoderFootprint case 6 => EncoderAdjustment case 7 => Layout
    case 8 => LayoutOffset case 9 => LogLevel case 10 => MaxKeys case 11 => RouteSwitches
    case 12 => RouteRows case 13 => Switch case 14 => Diode case 15 => NoStabilizers
    case 16 => StabilizerFootprint case 17 => LedFootprint case 18 => SkipLedDecoupling
    case 19 => LedCapacitorFootprint case 20 => CreateLedPcb case 21 => CreateLedSch
    case 22 => BundleStrategy case 23 => AdditionalElements
  }

  function Rank(f: Flag): nat {
    match f
    case PcbFile => 0 case CreateSchFile => 1 case CreatePcbFile => 2 case SwitchFootprint => 3
    case DiodeFootprint => 4 case EncoderFootprint => 5 case EncoderAdjustment => 6 case Layout => 7
    case LayoutOffset => 8 case LogLevel => 9 case MaxKeys => 10 case RouteSwitches => 11
    case RouteRows => 12 case Switch => 13 case Diode => 14 case NoStabilizers => 15
    case StabilizerFootprint => 16 case LedFootprint => 17 case SkipLedDecoupling => 18
    case LedCapacitorFootprint => 19 case CreateLedPcb => 20 case CreateLedSch => 21
    case BundleStrategy => 22 case AdditionalElements => 23
  }

  lemma RankOfFlagAt(i: nat)
    requires i < FLAGS
    ensures Rank(FlagAt(i)) == i
  {
  }

  lemma FlagAtRank(f: Flag)
    ensures Rank(f) < FLAGS && FlagAt(Rank(f)) == f
  {
  }

  function Name(f: Flag): string {
    match f
    case PcbFile => "--pcb-file"
    case CreateSchFile => "--create-sch-file"
    case CreatePcbFile => "--create-pcb-file"
    case SwitchFootprint => "--switch-footprint"
    case DiodeFootprint => "--diode-footprint"
    case EncoderFootprint => "--encoder-footprint"
    case EncoderAdjustment => "--encoder-adjustment"
    case Layout => "--layout"
    case LayoutOffset => "--layout-offset"
    case LogLevel => "--log-level"
    case MaxKeys => "--max-keys"
    case RouteSwitches => "--route-switches-with-diodes"
    case RouteRows => "--route-rows-and-columns"
    case Switch => "--switch"
    case Diode => "--diode"
    case NoStabilizers => "--no-stabilizers"
    case StabilizerFootprint => "--stabilizer-footprint"
    case LedFootprint => "--led-footprint"
    case SkipLedDecoupling => "--skip-led-decoupling"
    case LedCapacitorFootprint => "--led-capacitor-footprint"
    case CreateLedPcb => "--create-led-pcb-elements"
    case CreateLedSch => "--create-led-sch-file"
    case BundleStrategy => "--bundle-strategy"
    case AdditionalElements => "--additional-elements"
  }

  /** Length and two characters tell the names apart. */
  function Key(s: string): (nat, char, char) {
    (|s|, if |s| > 2 then s[2] else ' ', if |s| > 9 then s[9] else ' ')
  }

  lemma KeyOfName(f: Flag)
    ensures Key(Name(f)) == match f
                            case PcbFile => (10, 'p', 'e')
                            case CreateSchFile => (17, 'c', 's')
                            case CreatePcbFile => (17, 'c', 'p')
                            case SwitchFootprint => (18, 's', 'f')
                            case DiodeFootprint => (17, 'd', 'o')
                            case EncoderFootprint => (19, 'e', '-')
                            case EncoderAdjustment => (20, 'e', '-')
                            case Layout => (8, 'l', ' ')
                            case LayoutOffset => (15, 'l', 'o')
                            case LogLevel => (11, 'l', 'e')
                            case MaxKeys => (10, 'm', 's')
                            case RouteSwitches => (28, 'r', 'w')
                            case RouteRows => (24, 'r', 'o')
                            case Switch => (8, 's', ' ')
                            case Diode => (7, 'd', ' ')
                            case NoStabilizers => (16, 'n', 'i')
                            case StabilizerFootprint => (22, 's', 'z')
                            case LedFootprint => (15, 'l', 't')
                            case SkipLedDecoupling => (21, 's', 'd')
                            case LedCapacitorFootprint => (25, 'l', 'a')
                            case CreateLedPcb => (25, 'c', 'l')
                            case CreateLedSch => (21, 'c', 'l')
                            case BundleStrategy => (17, 'b', 's')
                            case AdditionalElements => (21, 'a', 'n')
  {
  }

  lemma NamesDiffer(f: Flag, g: Flag)
    requires Name(f) == Name(g)
    ensures f == g
  {
    hide Name, Key;
    KeyOfName(f);
    KeyOfName(g);
  }

  /** Whether a value follows. */
  predicate Valued(f: Flag) {
    !(f in {CreateSchFile, CreatePcbFile, RouteSwitches, RouteRows, NoStabilizers, SkipLedDecoupling,
            CreateLedPcb, CreateLedSch})
  }

  /* --------------------------------------------------- what is written */

  /** "<name> CUSTOM <x> <y> <rotation> <side>". */
  function Custom(name: string, p: Place): string {
    T.Join([name, "CUSTOM", FormatF(p.x), FormatF(p.y), FormatInt(p.rotation), p.side], ' ')
  }

  function StabilizerElement(side: string): string {
    T.Join(["ST{}", "CUSTOM", "0", "0", "0", side], ' ')
  }

  function Elements(opts: Options): seq<string> {
    (if opts.stabilizerFootprint == "" then [] else [StabilizerElement(opts.switchSide)])
    + (if opts.createLedPcbElements then [Custom("LED{}", opts.led)] else [])
    + (if opts.createLedPcbElements && !opts.skipLedDecoupling then [Custom("C{}", opts.ledCapacitor)] else [])
  }

  function When(c: bool, value: string): Option<string> {
    if c then Some(value) else None
  }

  /** When an option occurs, and with which value. */
  function Slot(opts: Options, f: Flag): Option<string> {
    var leds := opts.createLedPcbElements || opts.createLedSchFile;
    match f
    case PcbFile => Some(opts.pcbPath)
    case CreateSchFile => Some("")
    case CreatePcbFile => Some("")
    case SwitchFootprint => Some(opts.switchFootprint)
    case DiodeFootprint => Some(opts.diodeFootprint)
    case EncoderFootprint => Some(ENCODER_FOOTPRINT)
    case EncoderAdjustment => Some("-7.5 -2.5")
    case Layout => Some(opts.layoutPath)
    case LayoutOffset => Some("0 0")
    case LogLevel => Some("INFO")
    case MaxKeys => Some("150")
    case RouteSwitches => When(opts.routeSwitchesWithDiodes, "")
    case RouteRows => When(opts.routeRowsAndColumns, "")
    case Switch => Some(T.Join(["SW{}", FormatInt(opts.switchRotation), opts.switchSide], ' '))
    case Diode => Some(if opts.diodePresetPath != "" then T.Join(["D{}", "PRESET", opts.diodePresetPath], ' ')
                       else Custom("D{}", opts.diode))
    case NoStabilizers => When(opts.stabilizerFootprint == "", "")
    case StabilizerFootprint => When(opts.stabilizerFootprint != "", opts.stabilizerFootprint)
    case LedFootprint => When(leds && opts.ledFootprint != "", opts.ledFootprint)
    case SkipLedDecoupling => When(leds && opts.skipLedDecoupling, "")
    case LedCapacitorFootprint =>
      When(leds && !opts.skipLedDecoupling && opts.ledCapacitorFootprint != "", opts.ledCapacitorFootprint)
    case CreateLedPcb => When(opts.createLedPcbElements, "")
    case CreateLedSch => When(opts.createLedSchFile, "")
    case BundleStrategy => When(opts.createLedSchFile, "hierarchical")
    case AdditionalElements => When(Elements(opts) != [], T.Join(Elements(opts), ';'))
  }

  function Arg(opts: Options, f: Flag): seq<string> {
    match Slot(opts, f)
    case None => []
    case Some(value) => if Valued(f) then [Name(f), value] else [Name(f)]
  }

  function ArgsFrom(opts: Options, i: nat): seq<string>
    requires i <= FLAGS
    decreases FLAGS - i
  {
    if i == FLAGS then [] else Arg(opts, FlagAt(i)) + ArgsFrom(opts, i + 1)
  }

  const PYTHON_ARGS: seq<string> := ["-u", "-m", "kbplacer"]

  function Args(opts: Options): seq<string> {
    PYTHON_ARGS + ArgsFrom(opts, 0)
  }

  /* ------------------------------------------------- the decoder's side */

  ghost function FlagOf(s: string): Option<Flag> {
    if f :| Name(f) == s then Some(f) else None
  }

  lemma FlagOfName(f: Flag)
    ensures FlagOf(Name(f)) == Some(f)
  {
    hide Name;
    var g := FlagOf(Name(f)).value;
    NamesDiffer(f, g);
  }

  /** Reads options from left to right, each with its value if it takes one; a
      repeated or unknown option and a missing value are errors. */
  ghost function Parse(args: seq<string>, m: map<Flag, string>): Option<map<Flag, string>> {
    if args == [] then Some(m)
    else match FlagOf(args[0])
         case None => None
         case Some(f) =>
           if f in m then None
           else if !Valued(f) then Parse(args[1..], m[f := ""])
           else if |args| < 2 then None
           else Parse(args[2..], m[f := args[1]])
  }

  /** What a caller of kbplacer asks for, lengths in nanometres. */
  datatype Element = Element(name: string, xNm: int, yNm: int, rotation: int, side: string)

  datatype DiodeJob = AtPlace(element: Element) | FromPreset(path: string)

  datatype Job = Job(
    pcbPath: string, layoutPath: string,
    routeSwitchesWithDiodes: bool, routeRowsAndColumns: bool,
    switchFootprint: string, diodeFootprint: string, stabilizerFootprint: Option<string>,
    switchRotation: int, switchSide: string,
    diode: DiodeJob,
    ledPcb: bool, ledSch: bool,
    ledFootprint: Option<string>, ledCapacitorFootprint: Option<string>, skipLedDecoupling: bool,
    elements: seq<Element>)

  function ParseElement(s: string): Option<Element> {
    var words := T.SplitOn(s, ' ');
    if |words| != 6 || words[1] != "CUSTOM" then None
    else match (ParseF(words[2]), ParseF(words[3]), ParseInt(words[4]))
         case (Some(x), Some(y), Some(r)) => Some(Element(words[0], x, y, r, words[5]))
         case _ => None
  }

  function ParseElements(parts: seq<string>): Option<seq<Element>> {
    if forall p <- parts :: ParseElement(p).Some?
    then Some(seq(|parts|, i requires 0 <= i < |parts| => ParseElement(parts[i]).value))
    else None
  }

  function ParseDiode(s: string): Option<DiodeJob> {
    var words := T.SplitOn(s, ' ');
    if |words| == 3 && words[..2] == ["D{}", "PRESET"] then Some(FromPreset(words[2]))
    else match ParseElement(s)
         case Some(e) => if e.name == "D{}" then Some(AtPlace(e)) else None
         case None => None
  }

  function ParseSwitch(s: string): Option<(int, string)> {
    var words := T.SplitOn(s, ' ');
    if |words| != 3 || words[0] != "SW{}" then None
    else match ParseInt(words[1])
         case Some(r) => Some((r, words[2]))
         case None => None
  }

  function Value(m: map<Flag, string>, f: Flag): Option<string> {
    if f in m then Some(m[f]) else None
  }

  /** The arguments every call has. */
  predicate HasConstants(m: map<Flag, string>) {
    && Value(m, CreateSchFile).Some? && Value(m, CreatePcbFile).Some?
    && Value(m, EncoderFootprint)
       == Some("/usr/share/kicad/footprints/Rotary_Encoder.pretty:RotaryEncoder_Alps_EC11E-Switch_Vertical_H20mm")
    && Value(m, EncoderAdjustment) == Some("-7.5 -2.5")
    && Value(m, LayoutOffset) == Some("0 0") && Value(m, LogLevel) == Some("INFO") && Value(m, MaxKeys) == Some("150")
    && Value(m, BundleStrategy) == When(Value(m, CreateLedSch).Some?, "hierarchical")
    && (Value(m, NoStabilizers).Some? <==> Value(m, StabilizerFootprint).None?)
  }

  predicate HasRequired(m: map<Flag, string>) {
    && Value(m, PcbFile).Some? && Value(m, Layout).Some?
    && Value(m, SwitchFootprint).Some? && Value(m, DiodeFootprint).Some?
    && Value(m, Switch).Some? && Value(m, Diode).Some?
  }

  function ElementsOf(m: map<Flag, string>): Option<seq<Element>> {
    match Value(m, AdditionalElements)
    case None => Some([])
    case Some(list) => ParseElements(T.SplitOn(list, ';'))
  }

  function JobOf(m: map<Flag, string>): Option<Job> {
    if !HasConstants(m) || !HasRequired(m) then None
    else match (ParseSwitch(Value(m, Switch).value), ParseDiode(Value(m, Diode).value), ElementsOf(m))
         case (Some(switch), Some(diode), Some(elements)) =>
           Some(Job(Value(m, PcbFile).value, Value(m, Layout).value,
                    Value(m, RouteSwitches).Some?, Value(m, RouteRows).Some?,
                    Value(m, SwitchFootprint).value, Value(m, DiodeFootprint).value, Value(m, StabilizerFootprint),
                    switch.0, switch.1, diode,
                    Value(m, CreateLedPcb).Some?, Value(m, CreateLedSch).Some?,
                    Value(m, LedFootprint), Value(m, LedCapacitorFootprint), Value(m, SkipLedDecoupling).Some?,
                    elements))
         case _ => None
  }

  ghost function Decode(args: seq<string>): Option<Job> {
    if |args| < 3 || args[..3] != ["-u", "-m", "kbplacer"] then None
    else match Parse(args[3..], map[])
         case None => None
         case Some(m) => JobOf(m)
  }

  /* ----------------------------------------------------- the round trip */

  predicate Plain(s: string) {
    ' ' !in s && ';' !in s
  }

  /** Texts that go into a blank-separated list hold no blank (nor semicolon). */
  predicate WellFormed(opts: Options) {
    && Plain(opts.switchSide)
    && (if opts.diodePresetPath == "" then Plain(opts.diode.side) else ' ' !in opts.diodePresetPath)
    && (opts.createLedPcbElements ==> Plain(opts.led.side))
    && (opts.createLedPcbElements && !opts.skipLedDecoupling ==> Plain(opts.ledCapacitor.side))
  }

  function Nm(mm: real): int {
    HalfEven(NM_PER_MM as real * mm)
  }

  function ElementAt(name: string, p: Place): Element {
    Element(name, Nm(p.x), Nm(p.y), p.rotation, p.side)
  }

  /** What the options mean. */
  function Normalised(opts: Options): Job {
    var leds := opts.createLedPcbElements || opts.createLedSchFile;
    Job(opts.pcbPath, opts.layoutPath, opts.routeSwitchesWithDiodes, opts.routeRowsAndColumns,
        opts.switchFootprint, opts.diodeFootprint, When(opts.stabilizerFootprint != "", opts.stabilizerFootprint),
        opts.switchRotation, opts.switchSide,
        if opts.diodePresetPath != "" then FromPreset(opts.diodePresetPath) else AtPlace(ElementAt("D{}", opts.diode)),
        opts.createLedPcbElements, opts.createLedSchFile,
        When(leds && opts.ledFootprint != "", opts.ledFootprint),
        When(leds && !opts.skipLedDecoupling && opts.ledCapacitorFootprint != "", opts.ledCapacitorFootprint),
        leds && opts.skipLedDecoupling,
        (if opts.stabilizerFootprint == "" then [] else [Element("ST{}", 0, 0, 0, opts.switchSide)])
        + (if opts.createLedPcbElements then [ElementAt("LED{}", opts.led)] else [])
        + (if opts.createLedPcbElements && !opts.skipLedDecoupling then [ElementAt("C{}", opts.ledCapacitor)] else []))
  }

  lemma ParseOne(opts: Options, f: Flag, rest: seq<string>, m: map<Flag, string>)
    requires f !in m
    ensures Parse(Arg(opts, f) + rest, m)
         == Parse(rest, if Slot(opts, f).Some? then m[f := if Valued(f) then Slot(opts, f).value else ""] else m)
  {
    hide Slot, Valued, Name;
    FlagOfName(f);
    var args := Arg(opts, f) + rest;
    if Slot(opts, f).Some? {
      if Valued(f) {
        assert args[2..] == rest;
      } else {
        assert args[1..] == rest;
      }
    } else {
      assert args == rest;
    }
  }

  lemma FlagsWithoutValue(opts: Options, f: Flag)
    ensures Slot(opts, f).Some? && !Valued(f) ==> Slot(opts, f).value == ""
  {
  }

  /** Parsing from the i-th option on finds these options where the table says so. */
  lemma {:induction false} ParseArgsFrom(opts: Options, i: nat, m: map<Flag, string>)
    requires i <= FLAGS && forall f <- m :: Rank(f) < i
    ensures var r := Parse(ArgsFrom(opts, i), m);
            && r.Some?
            && forall f :: Value(r.value, f) == if Rank(f) < i then Value(m, f) else Slot(opts, f)
    decreases FLAGS - i
  {
    hide Slot, Valued, Arg, Parse, Rank, FlagAt;
    forall f: Flag
      ensures Rank(f) < FLAGS
    {
      FlagAtRank(f);
    }
    if i == FLAGS {
      ParseNothing(m);
    } else {
      var f := FlagAt(i);
      RankOfFlagAt(i);
      ParseOne(opts, f, ArgsFrom(opts, i + 1), m);
      FlagsWithoutValue(opts, f);
      var n := if Slot(opts, f).Some? then m[f := Slot(opts, f).value] else m;
      ParseArgsFrom(opts, i + 1, n);
      forall g: Flag
        ensures Rank(g) == i <==> g == f
      {
        FlagAtRank(g);
      }
    }
  }

  lemma ParseNothing(m: map<Flag, string>)
    ensures Parse([], m) == Some(m)
  {
  }

  lemma ParseCustom(name: string, p: Place)
    requires ' ' !in name && ' ' !in p.side
    ensures ParseElement(Custom(name, p)) == Some(ElementAt(name, p))
    ensures T.SplitOn(Custom(name, p), ' ')
         == [name, "CUSTOM", FormatF(p.x), FormatF(p.y), FormatInt(p.rotation), p.side]
  {
    hide FormatF, FormatInt, ParseF, ParseInt, HalfEven, T.SplitOn, T.Join;
    ParseFormatF(p.x);
    ParseFormatF(p.y);
    ParseFormatInt(p.rotation);
    T.SplitOfJoin([name, "CUSTOM", FormatF(p.x), FormatF(p.y), FormatInt(p.rotation), p.side], ' ');
  }

  lemma ElementAvoidsSemicolon(name: string, x: string, y: string, r: string, side: string)
    requires forall s <- [name, x, y, r, side] :: ';' !in s
    ensures ';' !in T.Join([name, "CUSTOM", x, y, r, side], ' ')
  {
    T.JoinAvoids([name, "CUSTOM", x, y, r, side], ' ', ';');
  }

  lemma CustomAvoidsSemicolon(name: string, p: Place)
    requires ';' !in name && ';' !in p.side
    ensures ';' !in Custom(name, p)
  {
    hide FormatF, FormatInt, ParseF, ParseInt, T.Join;
    ParseFormatF(p.x);
    ParseFormatF(p.y);
    ParseFormatInt(p.rotation);
    ElementAvoidsSemicolon(name, FormatF(p.x), FormatF(p.y), FormatInt(p.rotation), p.side);
  }

  lemma ParseZero()
    ensures ParseF("0") == Some(0) && ParseInt("0") == Some(0)
  {
    assert T.Cut("0", '.').None?;
  }

  lemma ParseStabilizer(side: string)
    requires Plain(side)
    ensures ParseElement(StabilizerElement(side)) == Some(Element("ST{}", 0, 0, 0, side))
    ensures ';' !in StabilizerElement(side)
  {
    ParseZero();
    hide ParseF, ParseInt, T.SplitOn, T.Join;
    T.SplitOfJoin(["ST{}", "CUSTOM", "0", "0", "0", side], ' ');
    ElementAvoidsSemicolon("ST{}", "0", "0", "0", side);
  }

  lemma ParseConcat(a: seq<string>, b: seq<string>, c: seq<string>, x: seq<Element>, y: seq<Element>, z: seq<Element>)
    requires ParseElements(a) == Some(x) && ParseElements(b) == Some(y) && ParseElements(c) == Some(z)
    ensures ParseElements(a + b + c) == Some(x + y + z)
  {
    hide ParseElement;
    assert ParseElements(a + b + c).value == x + y + z;
  }

  lemma ParseOptional(c: bool, s: string, e: Element)
    requires c ==> ParseElement(s) == Some(e)
    ensures ParseElements(if c then [s] else []) == Some(if c then [e] else [])
  {
    hide ParseElement;
    assert ParseElements(if c then [s] else []).value == if c then [e] else [];
  }

  lemma OptionalAvoids(a: seq<string>, b: seq<string>, c: seq<string>, sep: char)
    requires forall s <- a :: sep !in s
    requires forall s <- b :: sep !in s
    requires forall s <- c :: sep !in s
    ensures forall s <- a + b + c :: sep !in s
  {
  }

  /** The ';'-separated list gives back the elements asked for. */
  lemma ElementsRoundTrip(opts: Options)
    requires WellFormed(opts)
    ensures ParseElements(Elements(opts)) == Some(Normalised(opts).elements)
    ensures forall s <- Elements(opts) :: ';' !in s
  {
    hide ParseElement, ParseElements, Custom, StabilizerElement, ElementAt;
    var stabs, leds := opts.stabilizerFootprint != "", opts.createLedPcbElements;
    var caps := leds && !opts.skipLedDecoupling;
    if stabs {
      ParseStabilizer(opts.switchSide);
    }
    if leds {
      ParseCustom("LED{}", opts.led);
      CustomAvoidsSemicolon("LED{}", opts.led);
    }
    if caps {
      ParseCustom("C{}", opts.ledCapacitor);
      CustomAvoidsSemicolon("C{}", opts.ledCapacitor);
    }
    var st, led, cap := StabilizerElement(opts.switchSide), Custom("LED{}", opts.led), Custom("C{}", opts.ledCapacitor);
    var x := Element("ST{}", 0, 0, 0, opts.switchSide);
    var y, z := ElementAt("LED{}", opts.led), ElementAt("C{}", opts.ledCapacitor);
    ParseOptional(stabs, st, x);
    ParseOptional(leds, led, y);
    ParseOptional(caps, cap, z);
    ParseConcat(if stabs then [st] else [], if leds then [led] else [], if caps then [cap] else [],
                if stabs then [x] else [], if leds then [y] else [], if caps then [z] else []);
    OptionalAvoids(if stabs then [st] else [], if leds then [led] else [], if caps then [cap] else [], ';');
    assert Elements(opts) ==
           (if stabs then [st] else []) + (if leds then [led] else []) + (if caps then [cap] else []);
    assert Normalised(opts).elements ==
           (if stabs then [x] else []) + (if leds then [y] else []) + (if caps then [z] else []);
  }

  lemma SwitchRoundTrip(rotation: int, side: string)
    requires ' ' !in side
    ensures ParseSwitch(T.Join(["SW{}", FormatInt(rotation), side], ' ')) == Some((rotation, side))
  {
    hide FormatInt, ParseInt, T.SplitOn, T.Join;
    ParseFormatInt(rotation);
    T.SplitOfJoin(["SW{}", FormatInt(rotation), side], ' ');
  }

  lemma DiodeRoundTrip(opts: Options)
    requires WellFormed(opts)
    ensures ParseDiode(Slot(opts, Diode).value) == Some(Normalised(opts).diode)
  {
    hide ParseElement, Custom, ElementAt, T.SplitOn, T.Join;
    if opts.diodePresetPath != "" {
      T.SplitOfJoin(["D{}", "PRESET", opts.diodePresetPath], ' ');
    } else {
      ParseCustom("D{}", opts.diode);
      ElementAtHasName("D{}", opts.diode);
    }
  }

  lemma ElementAtHasName(name: string, p: Place)
    ensures ElementAt(name, p).name == name
  {
  }

  ghost predicate Holds(opts: Options, m: map<Flag, string>) {
    forall f :: Value(m, f) == Slot(opts, f)
  }

  lemma SlotsOfConstants(opts: Options)
    ensures Slot(opts, EncoderFootprint) == Some(ENCODER_FOOTPRINT)
    ensures Slot(opts, EncoderAdjustment) == Some("-7.5 -2.5")
    ensures Slot(opts, LayoutOffset) == Some("0 0") && Slot(opts, LogLevel) == Some("INFO")
    ensures Slot(opts, MaxKeys) == Some("150")
  {
    hide Elements, Custom, T.Join, FormatInt;
  }

  lemma SlotsAlwaysThere(opts: Options)
    ensures Slot(opts, CreateSchFile).Some? && Slot(opts, CreatePcbFile).Some?
    ensures Slot(opts, Switch).Some? && Slot(opts, Diode).Some?
    ensures Slot(opts, BundleStrategy) == When(Slot(opts, CreateLedSch).Some?, "hierarchical")
    ensures Slot(opts, NoStabilizers).Some? <==> Slot(opts, StabilizerFootprint).None?
  {
    hide Elements, Custom, T.Join, FormatInt;
  }

  lemma ConstantsHold(opts: Options, m: map<Flag, string>)
    requires Holds(opts, m)
    ensures HasConstants(m)
  {
    hide Slot, Value;
    SlotsOfConstants(opts);
    SlotsAlwaysThere(opts);
  }

  /* What the options say without a format of their own. */

  lemma SlotsOfBoard(opts: Options)
    ensures var job := Normalised(opts);
            && Slot(opts, PcbFile) == Some(job.pcbPath) && Slot(opts, Layout) == Some(job.layoutPath)
            && Slot(opts, RouteSwitches).Some? == job.routeSwitchesWithDiodes
            && Slot(opts, RouteRows).Some? == job.routeRowsAndColumns
            && Slot(opts, SwitchFootprint) == Some(job.switchFootprint)
            && Slot(opts, DiodeFootprint) == Some(job.diodeFootprint)
            && Slot(opts, StabilizerFootprint) == job.stabilizerFootprint
            && job.switchRotation == opts.switchRotation && job.switchSide == opts.switchSide
  {
    hide Elements, Custom, ElementAt, T.Join, FormatInt;
  }

  lemma SlotsOfLeds(opts: Options)
    ensures var job := Normalised(opts);
            && Slot(opts, CreateLedPcb).Some? == job.ledPcb && Slot(opts, CreateLedSch).Some? == job.ledSch
            && Slot(opts, LedFootprint) == job.ledFootprint
            && Slot(opts, LedCapacitorFootprint) == job.ledCapacitorFootprint
            && Slot(opts, SkipLedDecoupling).Some? == job.skipLedDecoupling
  {
    hide Elements, Custom, ElementAt, T.Join, FormatInt;
  }

  lemma SlotsOfTexts(opts: Options)
    ensures Slot(opts, Switch) == Some(T.Join(["SW{}", FormatInt(opts.switchRotation), opts.switchSide], ' '))
    ensures Slot(opts, AdditionalElements) == When(Elements(opts) != [], T.Join(Elements(opts), ';'))
  {
    hide Elements, Custom, T.Join, FormatInt;
  }

  lemma WellFormedIsPlain(opts: Options)
    requires WellFormed(opts)
    ensures ' ' !in opts.switchSide
  {
  }

  lemma NoElements()
    ensures ParseElements([]) == Some([])
  {
    assert ParseElements([]).value == [];
  }

  lemma TextsHold(opts: Options, m: map<Flag, string>)
    requires WellFormed(opts) && Holds(opts, m) && Value(m, Switch).Some? && Value(m, Diode).Some?
    ensures ParseSwitch(Value(m, Switch).value) == Some((opts.switchRotation, opts.switchSide))
    ensures ParseDiode(Value(m, Diode).value) == Some(Normalised(opts).diode)
    ensures ElementsOf(m) == Some(Normalised(opts).elements)
  {
    hide Slot, Value, ParseElements, ParseSwitch, ParseDiode, Elements, T.SplitOn, T.Join, FormatInt, Normalised,
      WellFormed;
    SlotsOfTexts(opts);
    WellFormedIsPlain(opts);
    SwitchRoundTrip(opts.switchRotation, opts.switchSide);
    DiodeRoundTrip(opts);
    ElementsRoundTrip(opts);
    NoElements();
    if Elements(opts) != [] {
      T.SplitOfJoin(Elements(opts), ';');
    }
  }

  /** What the table of options says is what the options mean. */
  lemma JobOfSlots(opts: Options, m: map<Flag, string>)
    requires WellFormed(opts) && Holds(opts, m)
    ensures JobOf(m) == Some(Normalised(opts))
  {
    hide Slot, Value, ParseElements, ParseSwitch, ParseDiode, ElementsOf, HasConstants, WellFormed, Normalised;
    SlotsAlwaysThere(opts);
    ConstantsHold(opts, m);
    SlotsOfBoard(opts);
    SlotsOfLeds(opts);
    TextsHold(opts, m);
  }

  /** Every accepted set of options survives the command line: no option is
      repeated, and reading the arguments back gives what the options mean. */
  lemma ArgsRoundTrip(opts: Options)
    requires WellFormed(opts)
    ensures Decode(Args(opts)) == Some(Normalised(opts))
  {
    hide ArgsFrom, Parse, JobOf, Normalised, WellFormed, Slot;
    ParseArgsFrom(opts, 0, map[]);
    JobOfSlots(opts, Parse(ArgsFrom(opts, 0), map[]).value);
    assert Args(opts)[3..] == ArgsFrom(opts, 0);
  }

  /* ------------------------------------------------- buildKBPlacerArgs */

  lemma Next(args: seq<string>, opts: Options, i: nat, arg: seq<string>)
    requires i < FLAGS && arg == Arg(opts, FlagAt(i))
    ensures args + ArgsFrom(opts, i) == (args + arg) + ArgsFrom(opts, i + 1)
  {
    hide Arg, FlagAt;
  }

  lemma Skip(args: seq<string>, opts: Options, i: nat)
    requires i < FLAGS && Slot(opts, FlagAt(i)).None?
    ensures args + ArgsFrom(opts, i) == args + ArgsFrom(opts, i + 1)
  {
    hide Slot, FlagAt;
    assert args + [] == args;
    Next(args, opts, i, []);
  }

  /** buildKBPlacerArgs, section by section. */
  method BuildKBPlacerArgs(opts: Options) returns (args: seq<string>)
    ensures args == Args(opts)
    ensures WellFormed(opts) ==> Decode(args) == Some(Normalised(opts))
  {
    hide *;
    args := FixedArgs(opts);
    args := AppendRouting(args, opts);
    var additionalElements;
    args, additionalElements := AppendStabilizers(args, opts);
    args := AppendLedFootprints(args, opts);
    args, additionalElements := AppendLeds(args, additionalElements, opts);
    args := AppendElements(args, additionalElements, opts);
    if WellFormed(opts) {
      ArgsRoundTrip(opts);
    }
  }

  method FixedArgs(opts: Options) returns (args: seq<string>)
    ensures args + ArgsFrom(opts, 11) == Args(opts)
  {
    hide ArgsFrom, Arg;
    args := PYTHON_ARGS;
    args := FirstFixedArgs(args, opts);
    args := LastFixedArgs(args, opts);
  }

  method FirstFixedArgs(before: seq<string>, opts: Options) returns (args: seq<string>)
    ensures args + ArgsFrom(opts, 5) == before + ArgsFrom(opts, 0)
  {
    hide ArgsFrom, Elements, Custom, T.Join, FormatInt;
    args := before;
    Next(args, opts, 0, ["--pcb-file", opts.pcbPath]);
    args := args + ["--pcb-file", opts.pcbPath];
    Next(args, opts, 1, ["--create-sch-file"]);
    args := args + ["--create-sch-file"];
    Next(args, opts, 2, ["--create-pcb-file"]);
    args := args + ["--create-pcb-file"];
    Next(args, opts, 3, ["--switch-footprint", opts.switchFootprint]);
    args := args + ["--switch-footprint", opts.switchFootprint];
    Next(args, opts, 4, ["--diode-footprint", opts.diodeFootprint]);
    args := args + ["--diode-footprint", opts.diodeFootprint];
  }

  method LastFixedArgs(before: seq<string>, opts: Options) returns (args: seq<string>)
    ensures args + ArgsFrom(opts, 11) == before + ArgsFrom(opts, 5)
  {
    hide ArgsFrom, Elements, Custom, T.Join, FormatInt;
    args := before;
    Next(args, opts, 5, ["--encoder-footprint", ENCODER_FOOTPRINT]);
    args := args + ["--encoder-footprint", ENCODER_FOOTPRINT];
    Next(args, opts, 6, ["--encoder-adjustment", "-7.5 -2.5"]);
    args := args + ["--encoder-adjustment", "-7.5 -2.5"];
    Next(args, opts, 7, ["--layout", opts.layoutPath]);
    args := args + ["--layout", opts.layoutPath];
    Next(args, opts, 8, ["--layout-offset", "0 0"]);
    args := args + ["--layout-offset", "0 0"];
    Next(args, opts, 9, ["--log-level", "INFO"]);
    args := args + ["--log-level", "INFO"];
    Next(args, opts, 10, ["--max-keys", "150"]);
    args := args + ["--max-keys", "150"];
  }

  method AppendRouting(before: seq<string>, opts: Options) returns (args: seq<string>)
    ensures args + ArgsFrom(opts, 15) == before + ArgsFrom(opts, 11)
  {
    hide ArgsFrom, Elements, Custom, T.Join, FormatInt;
    args := before;
    if opts.routeSwitchesWithDiodes {
      Next(args, opts, 11, ["--route-switches-with-diodes"]);
      args := args + ["--route-switches-with-diodes"];
    } else {
      Skip(args, opts, 11);
    }
    if opts.routeRowsAndColumns {
      Next(args, opts, 12, ["--route-rows-and-columns"]);
      args := args + ["--route-rows-and-columns"];
    } else {
      Skip(args, opts, 12);
    }
    var switchArg := T.Join(["SW{}", FormatInt(opts.switchRotation), opts.switchSide], ' ');
    Next(args, opts, 13, ["--switch", switchArg]);
    args := args + ["--switch", switchArg];
    var diodeArg;
    if opts.diodePresetPath != "" {
      diodeArg := T.Join(["D{}", "PRESET", opts.diodePresetPath], ' ');
    } else {
      diodeArg := Custom("D{}", opts.diode);
    }
    Next(args, opts, 14, ["--diode", diodeArg]);
    args := args + ["--diode", diodeArg];
  }

  function StabilizerElements(opts: Options): seq<string> {
    if opts.stabilizerFootprint == "" then [] else [StabilizerElement(opts.switchSide)]
  }

  method AppendStabilizers(before: seq<string>, opts: Options) returns (args: seq<string>, elements: seq<string>)
    ensures args + ArgsFrom(opts, 17) == before + ArgsFrom(opts, 15)
    ensures elements == StabilizerElements(opts)
  {
    hide ArgsFrom, Elements, StabilizerElement, Custom, T.Join, FormatInt;
    args, elements := before, [];
    if opts.stabilizerFootprint == "" {
      Next(args, opts, 15, ["--no-stabilizers"]);
      args := args + ["--no-stabilizers"];
      Skip(args, opts, 16);
    } else {
      Skip(args, opts, 15);
      Next(args, opts, 16, ["--stabilizer-footprint", opts.stabilizerFootprint]);
      args := args + ["--stabilizer-footprint", opts.stabilizerFootprint];
      elements := elements + [StabilizerElement(opts.switchSide)];
    }
  }

  method AppendLedFootprints(before: seq<string>, opts: Options) returns (args: seq<string>)
    ensures args + ArgsFrom(opts, 20) == before + ArgsFrom(opts, 17)
  {
    hide ArgsFrom, Elements, Custom, T.Join, FormatInt;
    args := before;
    if opts.createLedPcbElements || opts.createLedSchFile {
      if opts.ledFootprint != "" {
        Next(args, opts, 17, ["--led-footprint", opts.ledFootprint]);
        args := args + ["--led-footprint", opts.ledFootprint];
      } else {
        Skip(args, opts, 17);
      }
      if opts.skipLedDecoupling {
        Next(args, opts, 18, ["--skip-led-decoupling"]);
        args := args + ["--skip-led-decoupling"];
        Skip(args, opts, 19);
      } else if opts.ledCapacitorFootprint != "" {
        Skip(args, opts, 18);
        Next(args, opts, 19, ["--led-capacitor-footprint", opts.ledCapacitorFootprint]);
        args := args + ["--led-capacitor-footprint", opts.ledCapacitorFootprint];
      } else {
        Skip(args, opts, 18);
        Skip(args, opts, 19);
      }
    } else {
      Skip(args, opts, 17);
      Skip(args, opts, 18);
      Skip(args, opts, 19);
    }
  }

  method AppendLeds(before: seq<string>, some: seq<string>, opts: Options)
      returns (args: seq<string>, elements: seq<string>)
    requires some == StabilizerElements(opts)
    ensures args + ArgsFrom(opts, 23) == before + ArgsFrom(opts, 20)
    ensures elements == Elements(opts)
  {
    hide ArgsFrom, StabilizerElement, Custom, T.Join, FormatInt;
    args, elements := before, some;
    if opts.createLedPcbElements {
      Next(args, opts, 20, ["--create-led-pcb-elements"]);
      args := args + ["--create-led-pcb-elements"];
      elements := elements + [Custom("LED{}", opts.led)];
      if !opts.skipLedDecoupling {
        elements := elements + [Custom("C{}", opts.ledCapacitor)];
      }
    } else {
      Skip(args, opts, 20);
    }
    if opts.createLedSchFile {
      Next(args, opts, 21, ["--create-led-sch-file"]);
      args := args + ["--create-led-sch-file"];
      Next(args, opts, 22, ["--bundle-strategy", "hierarchical"]);
      args := args + ["--bundle-strategy", "hierarchical"];
    } else {
      Skip(args, opts, 21);
      Skip(args, opts, 22);
    }
  }

  method AppendElements(before: seq<string>, elements: seq<string>, opts: Options) returns (args: seq<string>)
    requires elements == Elements(opts)
    ensures args == before + ArgsFrom(opts, 23)
  {
    hide Elements, Custom, T.Join, FormatInt;
    args := before;
    if |elements| > 0 {
      args := args + ["--additional-elements", T.Join(elements, ';')];
    }
  }
}
