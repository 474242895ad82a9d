/** The colours and text of console output with control sequences (SGR, section 8.3.117 of ECMA-48). */
module Ansi {
  import opened Wrappers
  import opened Numerals

  // ---------- colours ----------

  datatype Color = Rgb(r: nat, g: nat, b: nat)

  datatype Style = Style(fg: Option<Color>, bg: Option<Color>, bright: bool)

  const PLAIN_STYLE := Style(None, None, false)

  /** The sixteen system colours: eight normal, eight bright. */
  function AnsiColor(bright: bool, i: nat): Color
    requires i < 8
  {
    if !bright then
      match i
      case 0 => Rgb(0, 0, 0)
      case 1 => Rgb(187, 0, 0)
      case 2 => Rgb(0, 187, 0)
      case 3 => Rgb(187, 187, 0)
      case 4 => Rgb(0, 0, 187)
      case 5 => Rgb(187, 0, 187)
      case 6 => Rgb(0, 187, 187)
      case _ => Rgb(255, 255, 255)
    else
      match i
      case 0 => Rgb(85, 85, 85)
      case 1 => Rgb(255, 85, 85)
      case 2 => Rgb(0, 255, 0)
      case 3 => Rgb(255, 255, 85)
      case 4 => Rgb(85, 85, 255)
      case 5 => Rgb(255, 85, 255)
      case 6 => Rgb(85, 255, 255)
      case _ => Rgb(255, 255, 255)
  }

  const LEVELS: seq<nat> := [0, 95, 135, 175, 215, 255]

  /** Colour `i` of the palette, in closed form: system colours, a 6x6x6 cube, a grey ramp. */
  function Palette(i: nat): Color
    requires i < 256
  {
    if i < 16 then AnsiColor(i >= 8, i % 8)
    else if i < 232 then Rgb(LEVELS[(i - 16) / 36], LEVELS[(i - 16) / 6 % 6], LEVELS[(i - 16) % 6])
    else Rgb(8 + 10 * (i - 232), 8 + 10 * (i - 232), 8 + 10 * (i - 232))
  }

  ghost predicate IsPalette(colors: seq<Color>) {
    |colors| == 256 && forall i :: 0 <= i < 256 ==> colors[i] == Palette(i)
  }

  /** The first sixteen colours of the palette are the system's. */
  lemma SystemColours()
    ensures seq(16, i requires 0 <= i < 16 => Palette(i))
            == [Rgb(0, 0, 0), Rgb(187, 0, 0), Rgb(0, 187, 0), Rgb(187, 187, 0),
                Rgb(0, 0, 187), Rgb(187, 0, 187), Rgb(0, 187, 187), Rgb(255, 255, 255),
                Rgb(85, 85, 85), Rgb(255, 85, 85), Rgb(0, 255, 0), Rgb(255, 255, 85),
                Rgb(85, 85, 255), Rgb(255, 85, 255), Rgb(85, 255, 255), Rgb(255, 255, 255)]
  {
  }

  lemma CubePosition(r: nat, g: nat, b: nat)
    requires r < 6 && g < 6 && b < 6
    ensures Palette(16 + 36 * r + 6 * g + b) == Rgb(LEVELS[r], LEVELS[g], LEVELS[b])
  {
    var n := 36 * r + 6 * g + b;
    assert n / 36 == r && n / 6 == 6 * r + g && n % 6 == b;
  }

  lemma CubeLevels()
    ensures |LEVELS| == 6 && forall k :: 0 <= k < 6 ==> LEVELS[k] == if k == 0 then 0 else 55 + 40 * k
  {
  }

  method SetupPalette() returns (colors: seq<Color>)
    ensures IsPalette(colors)
  {
    colors := [];
    hide AnsiColor;
    for i := 0 to 2
      invariant |colors| == 8 * i && forall k :: 0 <= k < |colors| ==> colors[k] == Palette(k)
    {
      for j := 0 to 8
        invariant |colors| == 8 * i + j && forall k :: 0 <= k < |colors| ==> colors[k] == Palette(k)
      {
        colors := colors + [AnsiColor(i == 1, j)];
      }
    }
    hide Palette;
    for r := 0 to 6
      invariant |colors| == 16 + 36 * r && forall k :: 0 <= k < |colors| ==> colors[k] == Palette(k)
    {
      for g := 0 to 6
        invariant |colors| == 16 + 36 * r + 6 * g && forall k :: 0 <= k < |colors| ==> colors[k] == Palette(k)
      {
        for b := 0 to 6
          invariant |colors| == 16 + 36 * r + 6 * g + b && forall k :: 0 <= k < |colors| ==> colors[k] == Palette(k)
        {
          CubePosition(r, g, b);
          colors := colors + [Rgb(LEVELS[r], LEVELS[g], LEVELS[b])];
        }
      }
    }
    var level := 8;
    for i := 0 to 24
      invariant |colors| == 232 + i && level == 8 + 10 * i
      invariant forall k :: 0 <= k < |colors| ==> colors[k] == Palette(k)
    {
      GreyPosition(i);
      colors := colors + [Rgb(level, level, level)];
      level := level + 10;
    }
  }

  lemma GreyPosition(i: nat)
    requires i < 24
    ensures Palette(232 + i) == Rgb(8 + 10 * i, 8 + 10 * i, 8 + 10 * i)
  {
  }

  // ---------- the codes of one sequence ----------

  /** A parameter: digits, or nothing. */
  type Code = s: string | forall i :: 0 <= i < |s| ==> IsDigit(s[i])

  /** `parseInt`, none for NaN. */
  function Num(code: Code): Option<nat> {
    if code == "" then None else Some(Value(code))
  }

  predicate Extends(code: Code) {
    Num(code) == Some(38) || Num(code) == Some(48)
  }

  /** What a code other than 38 and 48 does. */
  function Simple(s: Style, num: Option<nat>): Style {
    match num
    case None => PLAIN_STYLE
    case Some(n) =>
      if n == 0 then PLAIN_STYLE
      else if n == 1 then s.(bright := true)
      else if n == 39 then s.(fg := None)
      else if n == 49 then s.(bg := None)
      else if 30 <= n < 38 then s.(fg := Some(AnsiColor(s.bright, n % 10)))
      else if 90 <= n < 98 then s.(fg := Some(AnsiColor(true, n % 10)))
      else if 40 <= n < 48 then s.(bg := Some(AnsiColor(false, n % 10)))
      else if 100 <= n < 108 then s.(bg := Some(AnsiColor(true, n % 10)))
      else s
  }

  /** One side of a style replaced, where there is a colour for it. */
  function WithColor(s: Style, foreground: bool, color: Option<Color>): (t: Style)
    ensures t.bright == s.bright && (foreground ==> t.bg == s.bg) && (!foreground ==> t.fg == s.fg)
    ensures color.Some? ==> (if foreground then t.fg else t.bg) == color
    ensures color.None? ==> t == s
  {
    if color.None? then s else if foreground then s.(fg := color) else s.(bg := color)
  }

  function PaletteColor(code: Code): Option<Color> {
    if Num(code).Some? && Num(code).value <= 255 then Some(Palette(Num(code).value)) else None
  }

  predicate Level(code: Code) {
    Num(code).Some? && Num(code).value <= 255
  }

  function TrueColor(r: Code, g: Code, b: Code): Option<Color> {
    if Level(r) && Level(g) && Level(b) then Some(Rgb(Num(r).value, Num(g).value, Num(b).value)) else None
  }

  /** How many parameters the first code takes, itself included: an extended colour needs its mode and as many
      more as the mode says; without enough of them, the mode alone is taken. */
  function Taken(nums: seq<Code>): (n: nat)
    requires nums != []
    ensures 1 <= n <= |nums|
  {
    if !Extends(nums[0]) || |nums| == 1 then 1
    else if nums[1] == "5" && |nums| >= 3 then 3
    else if nums[1] == "2" && |nums| >= 5 then 5
    else 2
  }

  function First(s: Style, nums: seq<Code>): Style
    requires nums != []
  {
    if !Extends(nums[0]) then Simple(s, Num(nums[0]))
    else
      var foreground := Num(nums[0]) == Some(38);
      if Taken(nums) == 3 then WithColor(s, foreground, PaletteColor(nums[2]))
      else if Taken(nums) == 5 then WithColor(s, foreground, TrueColor(nums[2], nums[3], nums[4]))
      else s
  }

  /** The style after a list of codes. */
  function Apply(s: Style, nums: seq<Code>): Style
    decreases |nums|
  {
    if nums == [] then s else Apply(First(s, nums), nums[Taken(nums)..])
  }

  // ---------- what the codes mean ----------

  /** Codes for one side: 30-37 and 90-97 set the foreground to a normal or bright system colour, the normal ones to a
      bright one after code 1, and 39 clears it; 40-47, 100-107 and 49 do so to the background, where brightness does
      not matter. Code 0 and the empty code restore the plain style. All other codes do nothing. */
  lemma OneCode(s: Style, code: Code)
    requires !Extends(code)
    ensures var t := Apply(s, [code]);
      if code == "" then t == Style(None, None, false)
      else
        var n := Value(code);
        if n == 0 then t == Style(None, None, false)
        else if n == 1 then t == Style(s.fg, s.bg, true)
        else if 30 <= n <= 37 then t == Style(Some(Palette(n - 30 + if s.bright then 8 else 0)), s.bg, s.bright)
        else if 90 <= n <= 97 then t == Style(Some(Palette(n - 90 + 8)), s.bg, s.bright)
        else if n == 39 then t == Style(None, s.bg, s.bright)
        else if 40 <= n <= 47 then t == Style(s.fg, Some(Palette(n - 40)), s.bright)
        else if 100 <= n <= 107 then t == Style(s.fg, Some(Palette(n - 100 + 8)), s.bright)
        else if n == 49 then t == Style(s.fg, None, s.bright)
        else t == s
  {
    OneIsSimple(s, code);
    hide *;
    if code != "" {
      SimpleCode(s, Value(code));
    }
  }

  lemma OneIsSimple(s: Style, code: Code)
    requires !Extends(code)
    ensures Apply(s, [code]) == if code == "" then Style(None, None, false) else Simple(s, Some(Value(code)))
  {
    ExtendedAlone(s, [code]);
    assert First(s, [code]) == Simple(s, Num(code));
    assert code == "" ==> Simple(s, Num(code)) == PLAIN_STYLE;
    hide Simple, Apply, Value;
  }

  lemma SystemPalette(bright: bool, i: nat)
    requires i < 8
    ensures Palette(i + if bright then 8 else 0) == AnsiColor(bright, i)
  {
    hide AnsiColor;
  }

  lemma SimpleCode(s: Style, n: nat)
    ensures var t := Simple(s, Some(n));
      if n == 0 then t == Style(None, None, false)
      else if n == 1 then t == Style(s.fg, s.bg, true)
      else if 30 <= n <= 37 then t == Style(Some(Palette(n - 30 + if s.bright then 8 else 0)), s.bg, s.bright)
      else if 90 <= n <= 97 then t == Style(Some(Palette(n - 90 + 8)), s.bg, s.bright)
      else if n == 39 then t == Style(None, s.bg, s.bright)
      else if 40 <= n <= 47 then t == Style(s.fg, Some(Palette(n - 40)), s.bright)
      else if 100 <= n <= 107 then t == Style(s.fg, Some(Palette(n - 100 + 8)), s.bright)
      else if n == 49 then t == Style(s.fg, None, s.bright)
      else t == s
  {
    hide AnsiColor, Palette;
    if 30 <= n <= 37 {
      SystemPalette(s.bright, n - 30);
    } else if 90 <= n <= 97 {
      SystemPalette(true, n - 90);
    } else if 40 <= n <= 47 {
      SystemPalette(false, n - 40);
    } else if 100 <= n <= 107 {
      SystemPalette(true, n - 100);
    }
  }

  /** An extended colour sets the side its code names: 38 the foreground, 48 the background, from the palette after a
      5, from three levels after a 2; numbers above 255 leave the style as it was. */
  lemma ExtendedCode(s: Style, nums: seq<Code>)
    requires |nums| > 2 && Extends(nums[0]) && forall i :: 0 <= i < |nums| ==> nums[i] != ""
    ensures |nums| == 3 && nums[1] == "5" ==>
              Apply(s, nums) == WithColor(s, Value(nums[0]) == 38,
                                          if Value(nums[2]) <= 255 then Some(Palette(Value(nums[2]))) else None)
    ensures |nums| == 5 && nums[1] == "2" ==>
              Apply(s, nums)
              == WithColor(s, Value(nums[0]) == 38,
                           if Value(nums[2]) <= 255 && Value(nums[3]) <= 255 && Value(nums[4]) <= 255
                           then Some(Rgb(Value(nums[2]), Value(nums[3]), Value(nums[4]))) else None)
  {
    hide Palette, Value, Apply, Simple;
    if Taken(nums) == |nums| {
      ExtendedAlone(s, nums);
    }
  }

  lemma ExtendedAlone(s: Style, nums: seq<Code>)
    requires nums != [] && Taken(nums) == |nums|
    ensures Apply(s, nums) == First(s, nums)
  {
    assert nums[|nums|..] == [];
  }

  /** The codes at which the parts of a list start: simple codes, and the 38 or 48 of an extended colour. */
  function Heads(nums: seq<Code>): seq<Code>
    decreases |nums|
  {
    if nums == [] then [] else [nums[0]] + Heads(nums[Taken(nums)..])
  }

  /** Without a code for the background or a reset, whatever else a list holds, the background stays. */
  lemma {:induction false} ForegroundCodesKeepBackground(s: Style, nums: seq<Code>)
    requires forall h :: h in Heads(nums) ==>
               h != "" && Value(h) != 0 && !(40 <= Value(h) <= 49) && !(100 <= Value(h) <= 107)
    ensures Apply(s, nums).bg == s.bg
    decreases |nums|
  {
    hide AnsiColor, Palette, Value;
    if nums != [] {
      assert nums[0] in Heads(nums);
      assert First(s, nums).bg == s.bg;
      hide First;
      assert forall h :: h in Heads(nums[Taken(nums)..]) ==> h in Heads(nums);
      ForegroundCodesKeepBackground(First(s, nums), nums[Taken(nums)..]);
    }
  }

  /** And without one for the foreground or a reset, the foreground stays. */
  lemma {:induction false} BackgroundCodesKeepForeground(s: Style, nums: seq<Code>)
    requires forall h :: h in Heads(nums) ==>
               h != "" && Value(h) != 0 && !(30 <= Value(h) <= 39) && !(90 <= Value(h) <= 97)
    ensures Apply(s, nums).fg == s.fg
    decreases |nums|
  {
    hide AnsiColor, Palette, Value;
    if nums != [] {
      assert nums[0] in Heads(nums);
      assert First(s, nums).fg == s.fg;
      hide First;
      assert forall h :: h in Heads(nums[Taken(nums)..]) ==> h in Heads(nums);
      BackgroundCodesKeepForeground(First(s, nums), nums[Taken(nums)..]);
    }
  }

  /** Palette colours below sixteen are those of the short codes, and a palette colour is the true colour of its
      levels. */
  lemma PaletteMeetsCodes(s: Style, short: Code, indexed: seq<Code>, levels: seq<Code>)
    requires |indexed| == 3 && Num(indexed[0]) == Some(38) && indexed[1] == "5" && indexed[2] != ""
    requires Value(indexed[2]) <= 255 && short != ""
    requires |levels| == 5 && levels[0] == indexed[0] && levels[1] == "2"
    requires forall i :: 2 <= i < 5 ==> levels[i] != "" && Value(levels[i]) <= 255
    ensures 30 <= Value(short) <= 37 && !s.bright && Value(indexed[2]) == Value(short) - 30 ==>
              Apply(s, indexed) == Apply(s, [short])
    ensures 90 <= Value(short) <= 97 && Value(indexed[2]) == Value(short) - 82 ==>
              Apply(s, indexed) == Apply(s, [short])
    ensures Palette(Value(indexed[2])) == Rgb(Value(levels[2]), Value(levels[3]), Value(levels[4])) ==>
              Apply(s, indexed) == Apply(s, levels)
  {
    assert 30 <= Value(short) <= 37 || 90 <= Value(short) <= 97 ==> !Extends(short);
    assert Extends(indexed[0]) && Value(indexed[0]) == 38 && indexed[0] != "";
    hide *;
    ExtendedCode(s, indexed);
    ExtendedCode(s, levels);
    if !Extends(short) {
      OneCode(s, short);
    }
  }

  // ---------- when a list of codes may be cut ----------

  /** The list does not end inside an extended colour. */
  predicate Complete(nums: seq<Code>)
    decreases |nums|
  {
    if nums == [] then true
    else if !Extends(nums[0]) then Complete(nums[1..])
    else if |nums| == 1 then false
    else if nums[1] == "5" then |nums| >= 3 && Complete(nums[3..])
    else if nums[1] == "2" then |nums| >= 5 && Complete(nums[5..])
    else Complete(nums[2..])
  }

  /** A complete list acts before whatever follows it as it does alone. */
  lemma {:induction false} CompleteComposes(s: Style, a: seq<Code>, b: seq<Code>)
    requires Complete(a)
    ensures Apply(s, a + b) == Apply(Apply(s, a), b)
    decreases |a|
  {
    hide Simple, PaletteColor, TrueColor, Num;
    if a == [] {
      assert a + b == b;
    } else {
      assert Taken(a + b) == Taken(a) && First(s, a + b) == First(s, a);
      assert (a + b)[Taken(a)..] == a[Taken(a)..] + b;
      CompleteComposes(First(s, a), a[Taken(a)..], b);
    }
  }

  function Repeat(code: Code, n: nat): (codes: seq<Code>)
    ensures |codes| == n && forall i :: 0 <= i < n ==> codes[i] == code
  {
    if n == 0 then [] else [code] + Repeat(code, n - 1)
  }

  lemma {:induction false} RepeatSets(s: Style, bright: bool, n: nat)
    requires n > 0
    ensures Apply(s, Repeat(if bright then "1" else "0", n)).bright == bright
    decreases n
  {
    var code: Code := if bright then "1" else "0";
    assert Value("1"[..0]) == 0 && Value("0"[..0]) == 0;
    assert Num("1") == Some(1) && Num("0") == Some(0);
    var rest := Repeat(code, n - 1);
    assert ([code] + rest)[1..] == rest;
    if n > 1 {
      RepeatSets(First(s, [code] + rest), bright, n - 1);
    }
  }

  /** How many parameters are missing from the extended colour at the start of a list. */
  function Missing(nums: seq<Code>): nat
    requires nums != []
  {
    if !Extends(nums[0]) then 0
    else if |nums| == 1 then 1
    else if nums[1] == "5" then (if |nums| >= 3 then 0 else 1)
    else if nums[1] == "2" then (if |nums| >= 5 then 0 else 5 - |nums|)
    else 0
  }

  lemma MissingAreSwallowed(s: Style, a: seq<Code>, b: seq<Code>)
    requires a != [] && |b| == Missing(a) > 0
    requires b[0] != "5" && b[0] != "2"
    ensures Apply(s, a + b).bright == s.bright
  {
    var nums := a + b;
    assert nums[0] == a[0] && (|a| > 1 ==> nums[1] == a[1]) && (|a| == 1 ==> nums[1] == b[0]);
    hide Simple, PaletteColor, TrueColor, Num;
    assert Taken(nums) == |nums|;
    assert nums[|nums|..] == [];
  }

  lemma CutInside(s: Style, a: seq<Code>) returns (b: seq<Code>)
    requires a != [] && Missing(a) > 0
    ensures Apply(s, a + b) != Apply(Apply(s, a), b)
  {
    hide Apply, Missing;
    b := Repeat(if !s.bright then "1" else "0", Missing(a));
    MissingAreSwallowed(s, a, b);
    RepeatSets(Apply(s, a), !s.bright, Missing(a));
  }

  lemma CutBehind(s: Style, a: seq<Code>, b: seq<Code>)
    requires a != [] && Missing(a) == 0
    ensures Apply(s, a + b) == Apply(First(s, a), a[Taken(a)..] + b)
    ensures !Complete(a) ==> !Complete(a[Taken(a)..])
  {
    hide Simple, PaletteColor, TrueColor, Num;
    assert Taken(a + b) == Taken(a) && First(s, a + b) == First(s, a);
    assert (a + b)[Taken(a)..] == a[Taken(a)..] + b;
  }

  /** After an incomplete list, some continuation acts differently, whatever the style before. */
  lemma {:induction false} IncompleteDiffers(s: Style, a: seq<Code>) returns (b: seq<Code>)
    requires !Complete(a)
    ensures Apply(s, a + b) != Apply(Apply(s, a), b)
    decreases |a|
  {
    hide First, Missing, Taken, Extends;
    assert a != [];
    hide Complete;
    if Missing(a) > 0 {
      b := CutInside(s, a);
    } else {
      CutBehind(s, a, []);
      b := IncompleteDiffers(First(s, a), a[Taken(a)..]);
      CutBehind(s, a, b);
    }
  }

  /** Cutting a list of codes in two never changes what it does. */
  ghost predicate CutsAfter(a: seq<Code>) {
    forall s, b :: Apply(s, a + b) == Apply(Apply(s, a), b)
  }

  /** A list may be cut exactly where no extended colour is open. */
  lemma CutsAfterIffComplete(a: seq<Code>)
    ensures CutsAfter(a) <==> Complete(a)
  {
    hide Apply, Complete;
    if Complete(a) {
      forall s, b ensures Apply(s, a + b) == Apply(Apply(s, a), b) {
        CompleteComposes(s, a, b);
      }
    } else {
      var b := IncompleteDiffers(PLAIN_STYLE, a);
    }
  }

  // ---------- chunks ----------

  const CSI := "\U{1B}["

  /** `split(/\033\[/)`. */
  function SplitCsi(s: string): (chunks: seq<string>)
    ensures chunks != []
  {
    if s == "" then [""]
    else if CSI <= s then [""] + SplitCsi(s[2..])
    else
      var rest := SplitCsi(s[1..]);
      [[s[0]] + rest[0]] + rest[1..]
  }

  predicate Private(c: char) {
    c == '!' || '<' <= c <= '?'
  }

  predicate Param(c: char) {
    IsDigit(c) || c == ';'
  }

  predicate Intermediate(c: char) {
    ' ' <= c <= ','
  }

  predicate Final(c: char) {
    '@' <= c <= '~'
  }

  predicate Terminator(c: char) {
    c == '\n' || c == '\r' || c == '\U{2028}' || c == '\U{2029}'
  }

  /** Where the longest run of the class from position `i` on ends. */
  function RunEnd(p: char -> bool, s: string, i: nat): (end: nat)
    requires i <= |s|
    ensures i <= end <= |s| && (forall k :: i <= k < end ==> p(s[k])) && (end < |s| ==> !p(s[end]))
    decreases |s| - i
  {
    if i == |s| || !p(s[i]) then i else RunEnd(p, s, i + 1)
  }

  /** The four classes of characters, by their code points. */
  lemma ClassesByCodePoint(c: char)
    ensures Private(c) <==> c as int == 0x21 || 0x3C <= c as int <= 0x3F
    ensures Param(c) <==> 0x30 <= c as int <= 0x39 || c as int == 0x3B
    ensures Intermediate(c) <==> 0x20 <= c as int <= 0x2C
    ensures Final(c) <==> 0x40 <= c as int <= 0x7E
  {
  }

  /** The four groups of the chunk pattern. */
  datatype Match = Match(priv: string, params: string, command: string, rest: string)

  /** The pattern allows this cut: private characters, parameters, a command ending at `c`, the rest. */
  ghost predicate Cut(text: string, a: int, b: int, c: int) {
    && 0 <= a <= b <= c < |text|
    && (forall i :: 0 <= i < a ==> Private(text[i]))
    && (forall i :: a <= i < b ==> Param(text[i]))
    && (forall i :: b <= i < c ==> Intermediate(text[i]))
    && Final(text[c])
  }

  /** The pattern at the start of a text, each repetition as long as it can be. */
  function MatchAt(text: string): (m: Option<Match>)
    ensures m.Some? ==> forall i :: 0 <= i < |m.value.params| ==> Param(m.value.params[i])
  {
    var a := RunEnd(Private, text, 0);
    var b := RunEnd(Param, text, a);
    var c := RunEnd(Intermediate, text, b);
    if c < |text| && Final(text[c]) then Some(Match(text[..a], text[a..b], text[b..c + 1], text[c + 1..])) else None
  }

  /** Matching greedily, without backtracking, succeeds whenever the pattern allows any cut at all. */
  lemma GreedyFindsEveryMatch(text: string)
    ensures MatchAt(text).Some? <==> exists a, b, c :: Cut(text, a, b, c)
  {
    if a, b, c :| Cut(text, a, b, c) {
      AnyCutIsGreedy(text, a, b, c);
    }
    if MatchAt(text).Some? {
      var a := RunEnd(Private, text, 0);
      var b := RunEnd(Param, text, a);
      assert Cut(text, a, b, RunEnd(Intermediate, text, b));
    }
  }

  lemma AnyCutIsGreedy(text: string, a: nat, b: nat, c: nat)
    requires Cut(text, a, b, c)
    ensures MatchAt(text).Some? && MatchAt(text).value.rest == text[c + 1..]
  {
    hide RunEnd;
    var i := RunEnd(Private, text, 0);
    var j := RunEnd(Param, text, i);
    var k := RunEnd(Intermediate, text, j);
    assert i >= a;
    assert j >= b;
    assert k == c;
  }

  /** The first match in multi-line mode: at the start of the text or of a later line. */
  function FindMatch(text: string, lineStart: bool): (m: Option<Match>)
    ensures m.Some? ==> forall i :: 0 <= i < |m.value.params| ==> Param(m.value.params[i])
  {
    if lineStart && MatchAt(text).Some? then MatchAt(text)
    else if text == "" then None
    else FindMatch(text[1..], Terminator(text[0]))
  }

  ghost predicate Starts(text: string, lineStart: bool, p: nat)
    requires p <= |text|
  {
    if p == 0 then lineStart else Terminator(text[p - 1])
  }

  /** The match found is the leftmost: there is none at an earlier start of a line, and none at all if no start
      of a line has one. */
  lemma {:induction false} FindMatchIsLeftmost(text: string, lineStart: bool) returns (p: nat)
    ensures p <= |text|
    ensures FindMatch(text, lineStart).Some? ==>
              Starts(text, lineStart, p) && FindMatch(text, lineStart) == MatchAt(text[p..])
    ensures FindMatch(text, lineStart).None? ==> p == |text| && (Starts(text, lineStart, p) ==> MatchAt("").None?)
    ensures NoneBefore(text, lineStart, p)
  {
    hide MatchAt, Terminator, NoneBefore;
    p := 0;
    assert text[0..] == text;
    if !(lineStart && MatchAt(text).Some?) && text != "" {
      var below := FindMatchIsLeftmost(text[1..], Terminator(text[0]));
      p := below + 1;
      assert text[1..][below..] == text[p..];
      NoneBeforeTail(text, lineStart, below);
    } else {
      NoneBeforeStart(text, lineStart);
    }
  }

  ghost predicate NoneBefore(text: string, lineStart: bool, p: nat)
    requires p <= |text|
  {
    forall q :: 0 <= q < p && Starts(text, lineStart, q) ==> MatchAt(text[q..]).None?
  }

  lemma NoneBeforeStart(text: string, lineStart: bool)
    ensures NoneBefore(text, lineStart, 0)
  {
  }

  lemma NoneBeforeTail(text: string, lineStart: bool, below: nat)
    requires text != "" && below < |text| && !(lineStart && MatchAt(text).Some?)
    requires NoneBefore(text[1..], Terminator(text[0]), below)
    ensures NoneBefore(text, lineStart, below + 1)
  {
    hide MatchAt;
    forall q | 0 <= q < below + 1 && Starts(text, lineStart, q) ensures MatchAt(text[q..]).None? {
      if q == 0 {
        assert text[0..] == text;
      } else {
        assert text[1..][q - 1..] == text[q..];
        assert Starts(text[1..], Terminator(text[0]), q - 1);
      }
    }
  }

  /** `split(';')`. */
  function SplitParams(params: string): (codes: seq<Code>)
    requires forall i :: 0 <= i < |params| ==> Param(params[i])
    ensures codes != []
  {
    if params == "" then [""]
    else
      var rest := SplitParams(params[1..]);
      assert Param(params[0]);
      if params[0] == ';' then [""] + rest
      else
        var code: Code := [params[0]] + rest[0];
        [code] + rest[1..]
  }

  /** A piece of output: text as it is, or text in a span with colours. */
  datatype Span = Plain(text: string) | Styled(fg: Option<Color>, bg: Option<Color>, text: string)

  function Dress(s: Style, text: string): Span {
    if s.fg.None? && s.bg.None? then Plain(text) else Styled(s.fg, s.bg, text)
  }

  predicate IsSgr(m: Match) {
    m.priv == "" && m.command == "m"
  }

  /** The style after a chunk. */
  function ChunkStyle(s: Style, text: string): Style {
    match FindMatch(text, true)
    case None => s
    case Some(m) => if IsSgr(m) then Apply(s, SplitParams(m.params)) else s
  }

  /** The text of a chunk. */
  function ChunkText(text: string): string {
    match FindMatch(text, true)
    case None => text
    case Some(m) => m.rest
  }

  /** The output for a chunk. */
  function ChunkSpan(s: Style, text: string): Span {
    match FindMatch(text, true)
    case None => Plain(text)
    case Some(m) => if IsSgr(m) then Dress(Apply(s, SplitParams(m.params)), m.rest) else Plain(m.rest)
  }

  /** A sequence that is not an SGR sequence, or no sequence at all, changes no style and colours no text. */
  lemma OthersChangeNothing(s: Style, text: string)
    requires var m := FindMatch(text, true); m.Some? ==> m.value.priv != "" || m.value.command != "m"
    ensures ChunkStyle(s, text) == s && ChunkSpan(s, text) == Plain(ChunkText(text))
    ensures ChunkText(text) == if FindMatch(text, true).Some? then FindMatch(text, true).value.rest else text
  {
    hide FindMatch, Apply;
  }

  function StyleAfter(s: Style, chunks: seq<string>): Style {
    if chunks == [] then s else ChunkStyle(StyleAfter(s, chunks[..|chunks| - 1]), chunks[|chunks| - 1])
  }

  function Spans(s: Style, chunks: seq<string>): (spans: seq<Span>)
    ensures |spans| == |chunks|
  {
    if chunks == [] then []
    else
      var init, last := chunks[..|chunks| - 1], chunks[|chunks| - 1];
      Spans(s, init) + [ChunkSpan(StyleAfter(s, init), last)]
  }

  function Texts(chunks: seq<string>): string {
    if chunks == [] then "" else Texts(chunks[..|chunks| - 1]) + ChunkText(chunks[|chunks| - 1])
  }

  class AnsiUp {
    var fg: Option<Color>
    var bg: Option<Color>
    var bright: bool
    // The shared palette, empty until it is first needed.
    var palette: seq<Color>

    ghost predicate Valid()
      reads this
    {
      palette == [] || IsPalette(palette)
    }

    function Current(): Style
      reads this
    {
      Style(fg, bg, bright)
    }

    constructor ()
      ensures Valid() && Current() == PLAIN_STYLE
    {
      fg, bg, bright, palette := None, None, false, [];
    }

    method SetColor(isForeground: bool, color: Color)
      modifies this`fg, this`bg
      ensures Current() == WithColor(old(Current()), isForeground, Some(color))
    {
      if isForeground {
        fg := Some(color);
      } else {
        bg := Some(color);
      }
    }

    /** The mode and operands of an extended colour, after its code has been shifted off. */
    method ExtendColor(num: Code, nums: seq<Code>) returns (rest: seq<Code>)
      requires Valid() && Extends(num)
      modifies this
      ensures Valid()
      ensures Current() == First(old(Current()), [num] + nums)
      ensures rest == ([num] + nums)[Taken([num] + nums)..]
    {
      ghost var all := [num] + nums;
      var isForeground := Num(num) == Some(38);
      rest := nums;
      hide Num, Palette, IsPalette;
      if |rest| >= 1 {
        var mode := rest[0];
        rest := rest[1..];
        if mode == "5" && |rest| >= 1 {
          var paletteIndex := Num(rest[0]);
          assert rest[0] == all[2];
          rest := rest[1..];
          if paletteIndex.Some? && 0 <= paletteIndex.value <= 255 {
            if palette == [] {
              palette := SetupPalette();
            }
            PaletteAt(palette, paletteIndex.value);
            SetColor(isForeground, palette[paletteIndex.value]);
          }
        } else if mode == "2" && |rest| >= 3 {
          var r, g, b := Num(rest[0]), Num(rest[1]), Num(rest[2]);
          assert rest[0] == all[2] && rest[1] == all[3] && rest[2] == all[4];
          rest := rest[3..];
          if r.Some? && r.value <= 255 && g.Some? && g.value <= 255 && b.Some? && b.value <= 255 {
            SetColor(isForeground, Rgb(r.value, g.value, b.value));
          }
        }
      }
    }

    method ApplyCodes(codes: seq<Code>)
      requires Valid()
      modifies this
      ensures Valid()
      ensures Current() == Apply(old(Current()), codes)
    {
      var nums := codes;
      while nums != []
        invariant Valid()
        invariant Apply(Current(), nums) == Apply(old(Current()), codes)
        decreases |nums|
      {
        ghost var before, all := Current(), nums;
        var numStr := nums[0];
        nums := nums[1..];
        assert [numStr] + nums == all;
        var num := Num(numStr);
        hide AnsiColor, IsPalette, Num, Apply;
        if num.None? || num.value == 0 {
          fg, bg, bright := None, None, false;
        } else if num.value == 1 {
          bright := true;
        } else if num.value == 39 {
          fg := None;
        } else if num.value == 49 {
          bg := None;
        } else if num.value >= 30 && num.value < 38 {
          fg := Some(AnsiColor(bright, num.value % 10));
        } else if num.value >= 90 && num.value < 98 {
          fg := Some(AnsiColor(true, num.value % 10));
        } else if num.value >= 40 && num.value < 48 {
          bg := Some(AnsiColor(false, num.value % 10));
        } else if num.value >= 100 && num.value < 108 {
          bg := Some(AnsiColor(true, num.value % 10));
        } else if num.value == 38 || num.value == 48 {
          nums := ExtendColor(numStr, nums);
        }
        assert Current() == First(before, all) && nums == all[Taken(all)..];
        ApplyFirst(before, all);
      }
    }

    method ProcessChunk(text: string, markup: bool) returns (span: Span)
      requires Valid()
      modifies this
      ensures Valid()
      ensures markup ==> Current() == ChunkStyle(old(Current()), text) && span == ChunkSpan(old(Current()), text)
      ensures !markup ==> Current() == old(Current()) && span == Plain(ChunkText(text))
    {
      hide FindMatch, SplitParams, Apply, IsPalette;
      var matches := FindMatch(text, true);
      if matches.None? {
        return Plain(text);
      }
      var origTxt := matches.value.rest;
      var nums := SplitParams(matches.value.params);
      if matches.value.priv != "" || matches.value.command != "m" {
        return Plain(origTxt);
      }
      if !markup {
        return Plain(origTxt);
      }
      ApplyCodes(nums);
      if fg.None? && bg.None? {
        span := Plain(origTxt);
      } else {
        span := Styled(fg, bg, origTxt);
      }
    }

    /** The first chunk is output as it is; every other chunk follows a control sequence introducer. The style
        carries over from chunk to chunk, and from call to call. */
    method Process(txt: string) returns (first: string, spans: seq<Span>)
      requires Valid()
      modifies this
      ensures Valid() && first == SplitCsi(txt)[0]
      ensures spans == Spans(old(Current()), SplitCsi(txt)[1..])
      ensures Current() == StyleAfter(old(Current()), SplitCsi(txt)[1..])
    {
      var chunks := SplitCsi(txt);
      first, chunks := chunks[0], chunks[1..];
      spans := [];
      hide ChunkSpan, ChunkStyle, IsPalette, SplitCsi;
      for i := 0 to |chunks|
        invariant Valid()
        invariant spans == Spans(old(Current()), chunks[..i])
        invariant Current() == StyleAfter(old(Current()), chunks[..i])
      {
        var span := ProcessChunk(chunks[i], true);
        spans := spans + [span];
        assert chunks[..i + 1][..i] == chunks[..i];
      }
      assert chunks[..|chunks|] == chunks;
    }

    /** The text alone; the style is left as it was. */
    method AnsiToText(txt: string) returns (text: string)
      requires Valid()
      modifies this
      ensures Valid() && Current() == old(Current())
      ensures text == SplitCsi(txt)[0] + Texts(SplitCsi(txt)[1..])
    {
      var chunks := SplitCsi(txt);
      var first, joined := chunks[0], "";
      chunks := chunks[1..];
      hide ChunkText, IsPalette, SplitCsi;
      for i := 0 to |chunks|
        invariant Valid() && Current() == old(Current())
        invariant joined == Texts(chunks[..i])
      {
        var span := ProcessChunk(chunks[i], false);
        joined := joined + span.text;
        assert chunks[..i + 1][..i] == chunks[..i];
      }
      assert chunks[..|chunks|] == chunks;
      text := first + joined;
    }
  }

  lemma PaletteAt(colors: seq<Color>, i: nat)
    requires IsPalette(colors) && i < 256
    ensures i < |colors| && colors[i] == Palette(i)
  {
  }

  lemma ApplyFirst(s: Style, nums: seq<Code>)
    requires nums != []
    ensures Apply(s, nums) == Apply(First(s, nums), nums[Taken(nums)..])
  {
  }

  // ---------- what is recovered from a stream ----------

  function TextOf(spans: seq<Span>): string {
    if spans == [] then "" else TextOf(spans[..|spans| - 1]) + spans[|spans| - 1].text
  }

  /** For every stream, marked up in any style, the text inside the spans is the text without markup. */
  lemma {:induction false} SpansCarryTheText(s: Style, chunks: seq<string>)
    ensures TextOf(Spans(s, chunks)) == Texts(chunks)
  {
    if chunks != [] {
      var init, last := chunks[..|chunks| - 1], chunks[|chunks| - 1];
      SpansCarryTheText(s, init);
      assert Spans(s, chunks)[..|chunks| - 1] == Spans(s, init);
      assert Spans(s, chunks)[|chunks| - 1] == ChunkSpan(StyleAfter(s, init), last);
    }
  }

  /** A text printed after a list of codes. */
  datatype Segment = Segment(codes: seq<Code>, text: string)

  ghost predicate CsiFree(s: string) {
    forall i :: 0 <= i < |s| ==> !(CSI <= s[i..])
  }

  function PrintCodes(codes: seq<Code>): string {
    if codes == [] then "" else if |codes| == 1 then codes[0] else codes[0] + ";" + PrintCodes(codes[1..])
  }

  function Body(segment: Segment): string {
    PrintCodes(segment.codes) + "m" + segment.text
  }

  function Bodies(segments: seq<Segment>): (bodies: seq<string>)
    ensures |bodies| == |segments|
  {
    seq(|segments|, i requires 0 <= i < |segments| => Body(segments[i]))
  }

  function PrintSegments(segments: seq<Segment>): string {
    if segments == [] then "" else CSI + Body(segments[0]) + PrintSegments(segments[1..])
  }

  /** A stream: plain text, then texts with the codes printed before them. */
  function PrintStream(first: string, segments: seq<Segment>): string {
    first + PrintSegments(segments)
  }

  lemma {:induction false} SplitBefore(text: string, rest: string)
    requires CsiFree(text) && (rest == "" || CSI <= rest)
    ensures SplitCsi(text + rest) == if rest == "" then [text] else [text] + SplitCsi(rest[2..])
  {
    if text == "" {
      assert text + rest == rest;
    } else {
      var s := text + rest;
      assert s[1..] == text[1..] + rest;
      assert !(CSI <= s) by {
        assert text[0..] == text;
        if |text| == 1 && rest != "" {
          assert s[1] == rest[0] == CSI[0];
        }
      }
      forall i | 0 <= i < |text[1..]| ensures !(CSI <= text[1..][i..]) {
        assert text[1..][i..] == text[i + 1..];
      }
      SplitBefore(text[1..], rest);
      var chunks := SplitCsi(s[1..]);
      assert chunks[0] == text[1..] && chunks[1..] == if rest == "" then [] else SplitCsi(rest[2..]);
      assert [s[0]] + text[1..] == text;
    }
  }

  lemma {:induction false} CodesHaveNoEscape(codes: seq<Code>)
    ensures forall i :: 0 <= i < |PrintCodes(codes)| ==> Param(PrintCodes(codes)[i])
  {
    if |codes| > 1 {
      CodesHaveNoEscape(codes[1..]);
    }
  }

  lemma BodyIsCsiFree(segment: Segment)
    requires CsiFree(segment.text)
    ensures CsiFree(Body(segment))
  {
    CodesHaveNoEscape(segment.codes);
    hide PrintCodes;
    var codes, body := PrintCodes(segment.codes), Body(segment);
    forall i | 0 <= i < |body| ensures !(CSI <= body[i..]) {
      if i <= |codes| {
        assert body[i] == body[i..][0];
        assert i < |codes| ==> Param(body[i]);
      } else {
        assert body[i..] == segment.text[i - |codes| - 1..];
      }
    }
  }

  ghost predicate CsiFreeTexts(segments: seq<Segment>) {
    forall i :: 0 <= i < |segments| ==> CsiFree(segments[i].text)
  }

  /** A printed stream splits into its texts with their codes. */
  lemma {:induction false} StreamSplits(first: string, segments: seq<Segment>)
    requires CsiFree(first) && CsiFreeTexts(segments)
    ensures SplitCsi(PrintStream(first, segments)) == [first] + Bodies(segments)
    decreases |segments|
  {
    hide SplitCsi, Body;
    var printed := PrintSegments(segments);
    SplitBefore(first, printed);
    if segments != [] {
      var rest := segments[1..];
      BodyIsCsiFree(segments[0]);
      hide CsiFree;
      StreamSplits(Body(segments[0]), rest);
      assert printed == CSI + (Body(segments[0]) + PrintSegments(rest));
      assert printed[2..] == PrintStream(Body(segments[0]), rest);
      assert Bodies(segments) == [Body(segments[0])] + Bodies(rest);
    }
  }

  /** No codes at all read as one empty code. */
  function CodesOf(segment: Segment): seq<Code> {
    if segment.codes == [] then [""] else segment.codes
  }

  lemma {:induction false} SplitPrintedCode(code: Code, rest: string)
    requires forall i :: 0 <= i < |rest| ==> Param(rest[i])
    requires rest == "" || rest[0] == ';'
    ensures forall i :: 0 <= i < |code + rest| ==> Param((code + rest)[i])
    ensures SplitParams(code + rest) == if rest == "" then [code] else [code] + SplitParams(rest[1..])
  {
    if code == "" {
      assert code + rest == rest;
    } else {
      assert (code + rest)[1..] == code[1..] + rest;
      assert IsDigit(code[0]);
      SplitPrintedCode(code[1..], rest);
      assert [code[0]] + code[1..] == code;
    }
  }

  lemma {:induction false} SplitPrintedCodes(codes: seq<Code>)
    requires codes != []
    ensures forall i :: 0 <= i < |PrintCodes(codes)| ==> Param(PrintCodes(codes)[i])
    ensures SplitParams(PrintCodes(codes)) == codes
  {
    hide SplitParams;
    CodesHaveNoEscape(codes);
    if |codes| == 1 {
      SplitPrintedCode(codes[0], "");
      assert codes[0] + "" == codes[0];
    } else {
      var rest := PrintCodes(codes[1..]);
      SplitPrintedCodes(codes[1..]);
      SplitPrintedCode(codes[0], ";" + rest);
      assert (";" + rest)[1..] == rest;
      assert codes[0] + ";" + rest == codes[0] + (";" + rest);
      assert [codes[0]] + codes[1..] == codes;
    }
  }

  lemma BodyMatches(segment: Segment)
    ensures FindMatch(Body(segment), true) == Some(Match("", PrintCodes(segment.codes), "m", segment.text))
  {
    var codes, body := PrintCodes(segment.codes), Body(segment);
    CodesHaveNoEscape(segment.codes);
    hide PrintCodes, RunEnd;
    var n := |codes|;
    assert body[n] == 'm';
    assert forall i :: 0 <= i < n ==> body[i] == codes[i];
    assert n > 0 ==> Param(body[0]);
    assert !Private(body[0]);
    assert RunEnd(Private, body, 0) == 0;
    assert RunEnd(Param, body, 0) == n;
    assert RunEnd(Intermediate, body, n) == n;
    assert body[..0] == "" && body[0..n] == codes && body[n..n + 1] == "m" && body[n + 1..] == segment.text;
  }

  /** The left fold of all codes so far. */
  function StyleAt(s: Style, segments: seq<Segment>): Style {
    if segments == [] then s
    else Apply(StyleAt(s, segments[..|segments| - 1]), CodesOf(segments[|segments| - 1]))
  }

  lemma BodyRecovered(s: Style, segment: Segment)
    ensures ChunkStyle(s, Body(segment)) == Apply(s, CodesOf(segment))
    ensures ChunkSpan(s, Body(segment)) == Dress(Apply(s, CodesOf(segment)), segment.text)
    ensures ChunkText(Body(segment)) == segment.text
  {
    BodyMatches(segment);
    hide FindMatch, Body, Apply;
    if segment.codes == [] {
      assert SplitParams("") == [""];
    } else {
      SplitPrintedCodes(segment.codes);
    }
  }

  function SegmentTexts(segments: seq<Segment>): string {
    if segments == [] then "" else SegmentTexts(segments[..|segments| - 1]) + segments[|segments| - 1].text
  }

  lemma {:induction false} BodiesRecovered(s: Style, segments: seq<Segment>)
    ensures StyleAfter(s, Bodies(segments)) == StyleAt(s, segments)
    ensures Texts(Bodies(segments)) == SegmentTexts(segments)
  {
    hide Body, ChunkStyle, ChunkText, ChunkSpan, Apply, Dress;
    if segments != [] {
      var n := |segments| - 1;
      var init, last := segments[..n], segments[n];
      BodiesRecovered(s, init);
      BodyRecovered(StyleAt(s, init), last);
      assert Bodies(segments)[..n] == Bodies(init) && Bodies(segments)[n] == Body(last);
    }
  }

  lemma {:induction false} SpanRecovered(s: Style, segments: seq<Segment>, k: nat)
    requires k < |segments|
    ensures Spans(s, Bodies(segments))[k] == Dress(StyleAt(s, segments[..k + 1]), segments[k].text)
  {
    hide Body, ChunkStyle, ChunkText, ChunkSpan, Apply, Dress;
    var n := |segments| - 1;
    var init, last := segments[..n], segments[n];
    assert Bodies(segments)[..n] == Bodies(init) && Bodies(segments)[n] == Body(last);
    if k < n {
      SpanRecovered(s, init, k);
      assert segments[..k + 1] == init[..k + 1];
    } else {
      BodiesRecovered(s, init);
      BodyRecovered(StyleAt(s, init), last);
      assert segments[..k + 1] == segments;
    }
  }

  /** From any style, a printed stream gives back its first text, and each later text in order, dressed in the
      fold of all codes up to it; without markup, all the texts. */
  lemma StreamRecovered(s: Style, first: string, segments: seq<Segment>)
    requires CsiFree(first) && CsiFreeTexts(segments)
    ensures var chunks := SplitCsi(PrintStream(first, segments));
      && chunks[0] == first
      && |Spans(s, chunks[1..])| == |segments|
      && (forall k :: 0 <= k < |segments| ==>
            Spans(s, chunks[1..])[k] == Dress(StyleAt(s, segments[..k + 1]), segments[k].text))
      && StyleAfter(s, chunks[1..]) == StyleAt(s, segments)
      && Texts(chunks[1..]) == SegmentTexts(segments)
  {
    StreamSplits(first, segments);
    BodiesRecovered(s, segments);
    forall k | 0 <= k < |segments|
      ensures Spans(s, Bodies(segments))[k] == Dress(StyleAt(s, segments[..k + 1]), segments[k].text)
    {
      SpanRecovered(s, segments, k);
    }
    hide SplitCsi, PrintStream, Bodies, Spans, StyleAfter, Texts, Dress, StyleAt, SegmentTexts, CsiFree;
    assert SplitCsi(PrintStream(first, segments))[1..] == Bodies(segments);
  }

  function AllCodes(segments: seq<Segment>): seq<Code> {
    if segments == [] then [] else AllCodes(segments[..|segments| - 1]) + CodesOf(segments[|segments| - 1])
  }

  lemma {:induction false} CompleteJoins(a: seq<Code>, b: seq<Code>)
    requires Complete(a)
    ensures Complete(a + b) <==> Complete(b)
    decreases |a|
  {
    hide Num;
    if a == [] {
      assert a + b == b;
    } else {
      var n := Taken(a);
      assert (a + b)[n..] == a[n..] + b;
      assert (a + b)[0] == a[0] && (|a| > 1 ==> (a + b)[1] == a[1]);
      CompleteJoins(a[n..], b);
    }
  }

  /** Where no sequence ends inside an extended colour, all codes so far act as one sequence would. */
  lemma {:induction false} StreamActsAsOneSequence(s: Style, segments: seq<Segment>)
    requires forall i :: 0 <= i < |segments| ==> Complete(CodesOf(segments[i]))
    ensures StyleAt(s, segments) == Apply(s, AllCodes(segments)) && Complete(AllCodes(segments))
  {
    hide CodesOf;
    if segments != [] {
      hide Apply, Complete;
      var init, last := segments[..|segments| - 1], segments[|segments| - 1];
      StreamActsAsOneSequence(s, init);
      CompleteComposes(s, AllCodes(init), CodesOf(last));
      CompleteJoins(AllCodes(init), CodesOf(last));
    }
  }

  /** The two spans of a stream of two texts. */
  lemma TwoTexts(s: Style, segments: seq<Segment>)
    requires |segments| == 2 && CsiFree("") && CsiFreeTexts(segments)
    ensures var spans := Spans(s, SplitCsi(PrintStream("", segments))[1..]);
      && |spans| == 2 && spans[0] == Dress(StyleAt(s, segments[..1]), segments[0].text)
      && spans[1] == Dress(StyleAt(s, segments[..2]), segments[1].text)
  {
    hide *;
    StreamRecovered(s, "", segments);
  }

  lemma RedThenPlainPrinted()
    ensures PrintStream("", [Segment(["31"], "X"), Segment(["0"], "Y")]) == "\U{1B}[31mX\U{1B}[0mY"
  {
    var red, plain := Segment(["31"], "X"), Segment(["0"], "Y");
    assert [plain][1..] == [] && [red, plain][1..] == [plain];
    assert PrintSegments([plain]) == CSI + "0mY";
    assert PrintSegments([red, plain]) == CSI + "31mX" + CSI + "0mY";
  }

  lemma SmallNumerals()
    ensures Value("31") == 31 && Value("0") == 0
  {
    ValueIsDecimal("", '3');
    ValueIsDecimal("3", '1');
    ValueIsDecimal("", '0');
    assert "" + ['3'] == "3" && "3" + ['1'] == "31" && "" + ['0'] == "0";
  }

  lemma RedThenPlainStyles(s: Style, segments: seq<Segment>)
    requires s.bg.None? && !s.bright && |segments| == 2
    requires segments[0] == Segment(["31"], "X") && segments[1] == Segment(["0"], "Y")
    ensures Dress(StyleAt(s, segments[..1]), "X") == Styled(Some(Rgb(187, 0, 0)), None, "X")
    ensures Dress(StyleAt(s, segments[..2]), "Y") == Plain("Y")
  {
    var first := segments[..1];
    SmallNumerals();
    hide Value, Apply, First;
    assert segments[..2] == segments && first[..0] == [] && segments[..2][..1] == first;
    assert StyleAt(s, first) == Apply(s, ["31"]);
    assert StyleAt(s, segments[..2]) == Apply(StyleAt(s, first), ["0"]);
    assert !Extends("31") && !Extends("0") && Palette(1) == Rgb(187, 0, 0);
    hide StyleAt, Extends, Palette;
    OneCode(s, "31");
    OneCode(Apply(s, ["31"]), "0");
  }

  /** The stream that `RedThenPlainPrinted` prints shows X in red and Y plain. */
  lemma RedThenPlain(s: Style, segments: seq<Segment>)
    requires s.bg.None? && !s.bright && |segments| == 2
    requires segments[0] == Segment(["31"], "X") && segments[1] == Segment(["0"], "Y")
    ensures var spans := Spans(s, SplitCsi(PrintStream("", segments))[1..]);
      |spans| == 2 && spans[0] == Styled(Some(Rgb(187, 0, 0)), None, "X") && spans[1] == Plain("Y")
  {
    assert CsiFree("") && CsiFree("X") && CsiFree("Y");
    assert CsiFreeTexts(segments);
    hide *;
    RedThenPlainStyles(s, segments);
    TwoTexts(s, segments);
  }
}
