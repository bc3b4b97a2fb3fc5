/**
 * Text drawn from a 16 x 16 sprite sheet: one sprite per character, placed
 * left to right with a fixed advance plus per-text kerning, centred on the
 * group, followed by a background plane.
 */
module Sprites {

  /** One cell of the 512-pixel sheet is 32 pixels wide and high. */
  const SpriteSize: real := 32.0 / 512.0
  /** Sprites sit slightly in front of the background plane. */
  const GlyphDepth: real := 0.1

  /** The MySprite constructor arguments. */
  datatype Sprite = Sprite(text: string, color: int, pos: real, offset: real,
                           scale: real, width: real, height: real)

  /** A child of the built group. */
  datatype Node =
    | Glyph(column: int, row: int, u: real, v: real, x: real, z: real, scale: real, color: int)
    | Plane(width: real, height: real)

  /** The sheet column of a character code: code mod 16. */
  function Column(code: nat): (c: nat)
    ensures c < 16
    ensures code == 16 * (code / 16) + c
  {
    code % 16
  }

  /**
   * The sheet row of a character code, counted from the bottom: 15 - code div
   * 16. It is a row of the sheet exactly for codes below 256.
   */
  function Row(code: nat): (r: int)
    ensures 0 <= r <= 15 <==> code < 256
    ensures r <= 15
    ensures code / 16 == 15 - r
  {
    15 - code / 16
  }

  /** Every character is drawn from a cell of the sheet exactly when its code is below 256. */
  lemma GlyphInSheet(code: nat)
    ensures 0 <= Column(code) < 16
    ensures (0 <= Row(code) < 16) <==> code < 256
  {
  }

  /** The adjustments of the 'Normal' case (also reached from 'DIFFICULTY'). */
  function NormalKerning(ch: char): real
  {
    if ch == 'N' then 0.05 else if ch == 'r' then -0.05 else if ch == 'm' then 0.15 else 0.0
  }

  /** The per-text `switch` after each character. */
  function CaseKerning(text: string, ch: char): (k: real)
    ensures text == "DIFFICULTY" ==> k == (if ch == 'I' then -0.2 else 0.0) + NormalKerning(ch)
    ensures text == "Normal" ==> k == NormalKerning(ch)
  {
    if text == "Diogo Silva" then
      if ch == 'D' || ch == 'S' then 0.1 else if ch == 'i' || ch == 'l' then -0.1 else 0.0
    else if text == "Tom\U{e1}s Pires" then
      if ch == 'i' then -0.1 else if ch == 'r' then -0.1 else if ch == 'm' then 0.15
      else if ch == 'P' then 0.1 else 0.0
    else if text == "SGI FEUP" then
      if ch == 'G' then 0.1 else if ch == 'I' then -0.2 else 0.0
    else if text == "Player Name" then
      if ch == 'P' then 0.1 else if ch == 'l' then -0.1 else if ch == 'e' then 0.05
      else if ch == 'N' then 0.1 else if ch == 'm' then 0.15 else 0.0
    else if text == "Start" then
      if ch == 'S' then 0.1 else if ch == 't' then -0.1 else if ch == 'r' then -0.05 else 0.0
    else if text == "Pick Your Car" then
      if ch == 'i' then -0.1 else if ch == 'P' then 0.1 else 0.0
    else if text == "Pick Opponent Car" then
      if ch == 'i' then -0.1 else if ch == 'P' || ch == 'O' then 0.1 else 0.0
    else if text == "DIFFICULTY" then
      // no `break`: control falls through into the 'Normal' adjustments
      (if ch == 'I' then -0.2 else 0.0) + NormalKerning(ch)
    else if text == "Normal" then
      NormalKerning(ch)
    else if text == "Hard" then
      if ch == 'H' then 0.1 else if ch == 'r' then -0.05 else 0.0
    else if text == "Restart" then
      if ch == 'R' then 0.05 else if ch == 't' then -0.1 else if ch == 'r' then -0.05 else 0.0
    else if text == "Return To Menu" then
      if ch == 'R' then 0.05 else if ch == 't' then -0.1 else if ch == 'r' then -0.05
      else if ch == 'M' then 0.1 else 0.0
    else if text == "Winner" then
      if ch == 'W' then 0.2 else if ch == 'i' then -0.1 else 0.0
    else 0.0
  }

  /** The texts the `switch` has a case for. */
  predicate HasCase(text: string) {
    text == "Diogo Silva" || text == "Tom\U{e1}s Pires" || text == "SGI FEUP"
    || text == "Player Name" || text == "Start" || text == "Pick Your Car"
    || text == "Pick Opponent Car" || text == "DIFFICULTY" || text == "Normal"
    || text == "Hard" || text == "Restart" || text == "Return To Menu" || text == "Winner"
  }

  /** The extra adjustments for texts starting with "Time". */
  function TimeKerning(ch: char): real
  {
    if ch == 'T' then 0.05 else if ch == 'i' then -0.1 else if ch == 'm' then 0.15
    else if ch == 'e' then 0.05 else if ch == ' ' then -0.2 else 0.0
  }

  predicate StartsWithTime(text: string) {
    |text| >= 4 && text[0] == 'T' && text[1] == 'i' && text[2] == 'm' && text[3] == 'e'
  }

  /** The whole adjustment of x after a character: the switch, then the "Time" rule. */
  function Kerning(text: string, ch: char): (k: real)
    ensures !HasCase(text) && !StartsWithTime(text) ==> k == 0.0
    ensures StartsWithTime(text) ==> k == CaseKerning(text, ch) + TimeKerning(ch)
    ensures !StartsWithTime(text) ==> k == CaseKerning(text, ch)
  {
    CaseKerning(text, ch) + (if StartsWithTime(text) then TimeKerning(ch) else 0.0)
  }

  /** The running x after i characters (before the next advance). */
  function Cursor(s: Sprite, i: nat): real
    requires i <= |s.text|
  {
    if i == 0 then s.pos else Cursor(s, i - 1) + s.offset + Kerning(s.text, s.text[i - 1])
  }

  /** Half the advance times the length: the group is centred on it. */
  function Center(s: Sprite): real {
    s.offset * |s.text| as real / 2.0
  }

  /** The sprite of character i. */
  function GlyphAt(s: Sprite, i: nat): (g: Node)
    requires i < |s.text|
    ensures g.Glyph? && g.x == Cursor(s, i) + s.offset - Center(s) && g.z == GlyphDepth
    ensures g.column == Column(s.text[i] as nat) && g.row == Row(s.text[i] as nat)
  {
    var code := s.text[i] as nat;
    Glyph(Column(code), Row(code), Column(code) as real * SpriteSize, Row(code) as real * SpriteSize,
          Cursor(s, i) + s.offset - Center(s), GlyphDepth, s.scale, s.color)
  }

  /** The group `build` returns: one sprite per character, then the plane. */
  function Layout(s: Sprite): (g: seq<Node>)
    ensures |g| == |s.text| + 1
    ensures forall i :: 0 <= i < |s.text| ==> g[i] == GlyphAt(s, i)
    ensures g[|s.text|] == Plane(s.width, s.height)
  {
    seq(|s.text|, i requires 0 <= i < |s.text| => GlyphAt(s, i)) + [Plane(s.width, s.height)]
  }

  /** `build`. */
  method Build(s: Sprite) returns (group: seq<Node>)
    ensures group == Layout(s)
  {
    group := [];
    var x := s.pos;
    var i := 0;
    while i < |s.text|
      invariant 0 <= i <= |s.text|
      invariant x == Cursor(s, i)
      invariant |group| == i
      invariant forall j :: 0 <= j < i ==> group[j] == GlyphAt(s, j)
    {
      var ch := s.text[i];
      var column := Column(ch as nat);
      var row := Row(ch as nat);
      x := x + s.offset;
      var center := Center(s);
      var glyph := Glyph(column, row, column as real * SpriteSize, row as real * SpriteSize,
                         x - center, GlyphDepth, s.scale, s.color);
      assert glyph == GlyphAt(s, i);
      group := group + [glyph];
      x := x + Kerning(s.text, ch);
      i := i + 1;
    }
    group := group + [Plane(s.width, s.height)];
  }

  /** Consecutive sprites are one advance plus the kerning of the first apart. */
  lemma Spacing(s: Sprite, i: nat)
    requires i + 1 < |s.text|
    ensures GlyphAt(s, i + 1).x - GlyphAt(s, i).x == s.offset + Kerning(s.text, s.text[i])
  {
  }

  /** The distance covered by n plain advances of `offset`. */
  function Advance(offset: real, n: nat): real {
    if n == 0 then 0.0 else Advance(offset, n - 1) + offset
  }

  /** n plain advances are n times the offset. */
  lemma {:induction false} AdvanceIsProduct(offset: real, n: nat)
    ensures Advance(offset, n) == n as real * offset
  {
    if n > 0 {
      AdvanceIsProduct(offset, n - 1);
      assert (n - 1) as real * offset + offset == n as real * offset;
    }
  }

  /**
   * A text without a switch case that does not start with "Time" never
   * gets a kerning adjustment: the cursor moves by plain advances only.
   */
  lemma {:induction false} UniformCursor(s: Sprite, i: nat)
    requires !HasCase(s.text) && !StartsWithTime(s.text)
    requires i <= |s.text|
    ensures Cursor(s, i) == s.pos + Advance(s.offset, i)
  {
    if i > 0 {
      UniformCursor(s, i - 1);
      assert Kerning(s.text, s.text[i - 1]) == 0.0;
    }
  }

  /**
   * Such a text is laid out uniformly: sprite i sits i + 1 plain advances
   * (that is, (i + 1) * offset, by `AdvanceIsProduct`) past pos, minus the centre.
   */
  lemma UniformLayout(s: Sprite, i: nat)
    requires !HasCase(s.text) && !StartsWithTime(s.text)
    requires i < |s.text|
    ensures GlyphAt(s, i).x == s.pos + Advance(s.offset, i + 1) - Center(s)
  {
    UniformCursor(s, i);
  }

  /**
   * 'DIFFICULTY' has no `break`, so its 'I' gets -0.2 and then every letter
   * also gets the 'Normal' adjustments.
   */
  lemma DifficultyFallsThrough(ch: char)
    ensures Kerning("DIFFICULTY", ch) == (if ch == 'I' then -0.2 else 0.0) + Kerning("Normal", ch)
  {
  }

  /** "Time" texts get the "Time" adjustments on top of the switch. */
  lemma TimeAdjustmentsAdd(text: string, ch: char)
    requires StartsWithTime(text)
    ensures Kerning(text, ch) == CaseKerning(text, ch) + TimeKerning(ch)
    ensures !HasCase(text) ==> Kerning(text, ch) == TimeKerning(ch)
  {
  }
}
