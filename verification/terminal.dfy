/** ANSI escape strings: Select Graphic Rendition control sequences (section 8.3.117 of
    ECMA-48), including the xterm 256-colour foreground and background forms, and runs of
    light box-drawing characters. */
module Terminal {
  import opened Decimal

  const Escape: char := '\U{1B}'

  /** ESC '[' parameters 'm'. */
  function ControlSequence(parameters: string): string {
    [Escape, '['] + parameters + "m"
  }

  /** s has the shape of an SGR sequence. */
  predicate IsSgr(s: string) {
    |s| >= 3 && s[0] == Escape && s[1] == '[' && s[|s| - 1] == 'm'
  }

  /** The parameter string of an SGR sequence. */
  function SgrParameters(s: string): string
    requires IsSgr(s)
  {
    s[2..|s| - 1]
  }

  /** Every control sequence is an SGR sequence that carries its parameters back out. */
  lemma ControlSequenceParses(parameters: string)
    ensures IsSgr(ControlSequence(parameters))
    ensures SgrParameters(ControlSequence(parameters)) == parameters
  {
  }

  /** The text attributes the terminal helpers offer, each one SGR sequence. */
  datatype Rendition = Reset | Normal | Bold | Dim | Underline | Blink | Reverse | ReverseOff

  /** The SGR parameter selecting the attribute. */
  function RenditionRaw(a: Rendition): string {
    match a
    case Reset => "0"
    case Normal => "22"
    case Bold => "1"
    case Dim => "2"
    case Underline => "4"
    case Blink => "5"
    case Reverse => "7"
    case ReverseOff => "27"
  }

  /** The escape string for an attribute: an SGR sequence whose single parameter is a one- or
      two-digit number. */
  function Render(a: Rendition): (r: string)
    ensures IsSgr(r) && SgrParameters(r) == RenditionRaw(a)
    ensures 1 <= |SgrParameters(r)| <= 2 && AllDigits(SgrParameters(r))
  {
    ControlSequence(RenditionRaw(a))
  }

  /** Distinct attributes have distinct escape strings. */
  lemma RenditionInjective(a: Rendition, b: Rendition)
    ensures Render(a) == Render(b) <==> a == b
  {
    if Render(a) == Render(b) {
      assert RenditionRaw(a) == RenditionRaw(b);
    }
  }

  datatype Color =
    | Black | Maroon | Green | Olive | Navy | Purple | Teal | Silver
    | Grey | Red | Lime | Yellow | Blue | Fuchsia | Aqua | White
    | Amber

  /** The colour's raw value. */
  function ColorRaw(c: Color): string {
    match c
    case Black => "0"
    case Maroon => "1"
    case Green => "2"
    case Olive => "3"
    case Navy => "4"
    case Purple => "5"
    case Teal => "6"
    case Silver => "7"
    case Grey => "8"
    case Red => "9"
    case Lime => "10"
    case Yellow => "11"
    case Blue => "12"
    case Fuchsia => "13"
    case Aqua => "14"
    case White => "15"
    case Amber => "208"
  }

  /** The entry of the 256-colour palette a colour names: the sixteen system colours in
      order, and amber at 208. */
  function PaletteIndex(c: Color): (n: nat)
    ensures n < 16 || n == 208
  {
    match c
    case Black => 0
    case Maroon => 1
    case Green => 2
    case Olive => 3
    case Navy => 4
    case Purple => 5
    case Teal => 6
    case Silver => 7
    case Grey => 8
    case Red => 9
    case Lime => 10
    case Yellow => 11
    case Blue => 12
    case Fuchsia => 13
    case Aqua => 14
    case White => 15
    case Amber => 208
  }

  /** A colour's raw value is the decimal text of its palette index. */
  lemma ColorRawIsPaletteIndex(c: Color)
    ensures ColorRaw(c) == NatToString(PaletteIndex(c))
    ensures AllDigits(ColorRaw(c))
  {
    var n := PaletteIndex(c);
    if n >= 10 {
      assert NatToString(n) == NatToString(n / 10) + [DigitChar(n % 10)];
      if n >= 100 {
        assert NatToString(n / 10) == NatToString(n / 100) + [DigitChar((n / 10) % 10)];
      }
    }
  }

  /** Distinct colours have distinct raw values. */
  lemma ColorRawInjective(a: Color, b: Color)
    ensures ColorRaw(a) == ColorRaw(b) <==> a == b
  {
    ColorRawIsPaletteIndex(a);
    ColorRawIsPaletteIndex(b);
    ParseNatToString(PaletteIndex(a));
    ParseNatToString(PaletteIndex(b));
  }

  datatype Ground = Fore | Back

  function GroundRaw(g: Ground): (r: string)
    ensures |r| == 2 && AllDigits(r)
  {
    match g
    case Fore => "38"
    case Back => "48"
  }

  /** The 256-colour SGR sequence selecting colour c for the foreground or background. */
  function SetColor(c: Color, g: Ground): (r: string)
    ensures IsSgr(r) && SgrParameters(r) == GroundRaw(g) + ";5;" + ColorRaw(c)
  {
    ControlSequence(GroundRaw(g) + ";5;" + ColorRaw(c))
  }

  /** Distinct colour and ground choices produce distinct sequences. */
  lemma SetColorInjective(c1: Color, g1: Ground, c2: Color, g2: Ground)
    ensures SetColor(c1, g1) == SetColor(c2, g2) <==> c1 == c2 && g1 == g2
  {
    if SetColor(c1, g1) == SetColor(c2, g2) {
      var p1 := GroundRaw(g1) + ";5;" + ColorRaw(c1);
      var p2 := GroundRaw(g2) + ";5;" + ColorRaw(c2);
      assert p1 == p2;
      assert GroundRaw(g1) == p1[..2] && GroundRaw(g2) == p2[..2];
      assert ColorRaw(c1) == p1[5..] && ColorRaw(c2) == p2[5..];
      ColorRawInjective(c1, c2);
    }
  }

  datatype LineBoxLightType =
    | TopLeftCorner | Horizontal | HorizontalDownCenter | TopRightCorner | Vertical
    | BottomLeftCorner | HorizontalUpCenter | BottomRightCorner

  /** The box-drawing character of each kind, from the Unicode "Box Drawing" block. */
  function BoxCharacter(t: LineBoxLightType): char {
    match t
    case TopLeftCorner => '\U{250C}'
    case Horizontal => '\U{2500}'
    case HorizontalDownCenter => '\U{252C}'
    case TopRightCorner => '\U{2510}'
    case Vertical => '\U{2502}'
    case BottomLeftCorner => '\U{2514}'
    case HorizontalUpCenter => '\U{2534}'
    case BottomRightCorner => '\U{2518}'
  }

  /** The character of t repeated `count` times, once when no count is given. */
  function LineBoxLight(t: LineBoxLightType, count: int := 1): (r: string)
    requires count >= 0
    ensures |r| == count
    ensures forall i :: 0 <= i < |r| ==> r[i] == BoxCharacter(t)
    decreases count
  {
    if count == 0 then "" else [BoxCharacter(t)] + LineBoxLight(t, count - 1)
  }
}
