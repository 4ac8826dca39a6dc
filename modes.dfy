/** The pure lookups of the colour-transfer tool (colortransfer.cpp): the
    active working colour space, the decoding of a keypress into a command,
    the channel labels of each space, and the pair of colour conversions and
    blend rates that one recompute of the transfer reads. */
module Modes {

  /** The working colour space; NONE is the state before the first mode change. */
  datatype Mode = NONE | LAB | RGB | HSV | XYZ

  /** A keypress as `changeMode` receives it: a `char`, of which only the low
      eight bits survive the narrowing of `waitKey`'s `int` result. */
  type KeyCode = c: int | 0 <= c < 256

  const ESC: KeyCode := 27

  /** What a keypress asks the controller to do. */
  datatype Command = Select(target: Mode) | Quit | Ignore

  /** The implicit `int` to `char` conversion of a key code: keep the low
      eight bits (a modifier flag in the upper bits is dropped). */
  function Narrow(code: int): (c: KeyCode)
    ensures 0 <= code < 256 ==> c == code
    ensures (code - c) % 256 == 0
  {
    code % 256
  }

  /** ASCII lower-casing: the reference against which case-insensitivity is stated. */
  function Lower(c: KeyCode): KeyCode
  {
    if 'A' as int <= c <= 'Z' as int then c + 32 else c
  }

  /** The lower-case key that selects a mode. */
  function KeyOf(m: Mode): KeyCode
    requires m != NONE
  {
    match m
    case LAB => 'l' as int
    case RGB => 'r' as int
    case HSV => 'h' as int
    case XYZ => 'x' as int
  }

  /** The key switch of `changeMode`: r/R, l/L, h/H, x/X select a mode,
      escape quits, every other key is ignored. */
  function Decode(c: KeyCode): (cmd: Command)
    ensures cmd == Quit <==> c == ESC
    ensures cmd.Select? ==> cmd.target != NONE && Lower(c) == KeyOf(cmd.target)
    ensures forall m :: m != NONE && Lower(c) == KeyOf(m) ==> cmd == Select(m)
  {
    if c == 'r' as int || c == 'R' as int then Select(RGB)
    else if c == 'l' as int || c == 'L' as int then Select(LAB)
    else if c == 'h' as int || c == 'H' as int then Select(HSV)
    else if c == 'x' as int || c == 'X' as int then Select(XYZ)
    else if c == ESC then Quit
    else Ignore
  }

  /** Upper and lower case of a letter decode to the same command. */
  lemma DecodeIgnoresCase(c: KeyCode)
    ensures Decode(c) == Decode(Lower(c))
  {
  }

  /** The three trackbar labels of a mode; before the first mode change the
      labels are the empty strings of the zero-initialised globals. */
  function Labels(m: Mode): (names: seq<string>)
    ensures |names| == 3
    ensures m != NONE ==> forall i :: 0 <= i < 3 ==> names[i] != ""
  {
    match m
    case NONE => ["", "", ""]
    case LAB => ["Luminance", "Alpha", "Beta"]
    case RGB => ["Red", "Green", "Blue"]
    case HSV => ["Hue", "Saturation", "Value"]
    case XYZ => ["X", "Y", "Z"]
  }

  /** The label triple identifies the mode. */
  lemma LabelsIdentifyMode(m1: Mode, m2: Mode)
    requires Labels(m1) == Labels(m2)
    ensures m1 == m2
  {
  }

  /** Colour spaces that `cvtColor` converts between; Bgr is the native
      channel order of decoded images. */
  datatype Space = Bgr | Lab | Rgb | Hsv | Xyz

  /** A `cvtColor` conversion code, kept symbolic: the conversion bodies
      belong to the image library. */
  datatype Conversion = Convert(source: Space, target: Space)

  const BgrToLab := Convert(Bgr, Lab)
  const LabToBgr := Convert(Lab, Bgr)
  const BgrToRgb := Convert(Bgr, Rgb)
  const RgbToBgr := Convert(Rgb, Bgr)
  const BgrToHsv := Convert(Bgr, Hsv)
  const HsvToBgr := Convert(Hsv, Bgr)
  const BgrToXyz := Convert(Bgr, Xyz)
  const XyzToBgr := Convert(Xyz, Bgr)

  /** The space a selected mode works in. */
  function SpaceOf(m: Mode): Space
    requires m != NONE
  {
    match m
    case LAB => Lab
    case RGB => Rgb
    case HSV => Hsv
    case XYZ => Xyz
  }

  datatype ConversionPair = ConversionPair(forward: Conversion, backward: Conversion)

  /** The mode switch at the head of `colorTransfer`: the forward conversion
      leaves the native space for the mode's space, the backward one returns,
      and the initial mode NONE falls back to Lab. */
  function Conversions(m: Mode): (p: ConversionPair)
    ensures p.forward.source == Bgr
    ensures p.backward == Convert(p.forward.target, p.forward.source)
    ensures m != NONE ==> p.forward.target == SpaceOf(m)
    ensures m == NONE ==> p.forward.target == Lab
  {
    match m
    case LAB => ConversionPair(BgrToLab, LabToBgr)
    case RGB => ConversionPair(BgrToRgb, RgbToBgr)
    case HSV => ConversionPair(BgrToHsv, HsvToBgr)
    case XYZ => ConversionPair(BgrToXyz, XyzToBgr)
    case NONE => ConversionPair(BgrToLab, LabToBgr)
  }

  /** Everything one recompute of the transfer reads from the controller:
      the conversion pair and the per-channel blend rates. */
  datatype Params = Params(conversions: ConversionPair, rates: seq<real>)

  /** The blend rate of one channel: its integer percent divided by 100. */
  function Rate(percent: int): (rate: real)
    ensures 0 <= percent <= 100 <==> 0.0 <= rate <= 1.0
    ensures percent == 100 <==> rate == 1.0
    ensures percent == 0 <==> rate == 0.0
  {
    percent as real / 100.0
  }

  /** The parameters `colorTransfer` derives from the mode and the percent
      rates: the conversion lookup and one rate per channel. */
  function TransferParams(m: Mode, vals: seq<int>): (p: Params)
    ensures p.conversions == Conversions(m)
    ensures |p.rates| == |vals|
    ensures forall c :: 0 <= c < |vals| ==> p.rates[c] == Rate(vals[c])
    ensures (forall c :: 0 <= c < |vals| ==> 0 <= vals[c] <= 100) ==>
      forall c :: 0 <= c < |vals| ==> 0.0 <= p.rates[c] <= 1.0
  {
    Params(Conversions(m), seq(|vals|, c requires 0 <= c < |vals| => Rate(vals[c])))
  }
}
