/**
 * The theme colour (core/display/color.py, class ColorManager): the rim colour
 * of the gradient is the chosen colour darkened by 32 on each channel, and the
 * `.env` text is rewritten so that it holds one line for each of the two
 * colours, every other line kept where and as it was.
 */
module Color {
  import opened Wrappers
  import opened Text
  import opened Env
  import Renderer

  const NormalKey := "COLOR_NORMAL="
  const BottomKey := "COLOR_GRADIENT_BOTTOM="

  /** The gradient bottom stored with a new theme colour: `max(0, c - 32)` per channel. */
  function GradientBottom(c: Rgb): (d: Rgb)
    ensures d.r == Max(0, c.r - 32) && d.g == Max(0, c.g - 32) && d.b == Max(0, c.b - 32)
    ensures ValidRgb(c) ==> ValidRgb(d) && d.r <= c.r && d.g <= c.g && d.b <= c.b
  {
    Renderer.Darken(c, 32)
  }

  function NormalLine(c: Rgb): string { NormalKey + FormatRgb(c) + "\n" }

  function BottomLine(c: Rgb): string { BottomKey + FormatRgb(GradientBottom(c)) + "\n" }

  /** What the loop of `_update_env_file` makes of one line. */
  function Rewritten(line: string, c: Rgb): string
  {
    if StartsWith(line, NormalKey) then NormalLine(c)
    else if StartsWith(line, BottomKey) then BottomLine(c)
    else line
  }

  /** Some line was rewritten as the normal-colour line ... */
  predicate HasNormal(lines: seq<string>)
  {
    exists i :: 0 <= i < |lines| && StartsWith(lines[i], NormalKey)
  }

  /** ... or as the gradient-bottom line. */
  predicate HasBottom(lines: seq<string>)
  {
    exists i :: 0 <= i < |lines| && !StartsWith(lines[i], NormalKey) && StartsWith(lines[i], BottomKey)
  }

  /** The lines `_update_env_file` writes back for the lines it read and the colour `c`. */
  function RewriteLines(lines: seq<string>, c: Rgb): (out: seq<string>)
    ensures |out| == |lines| + (if HasNormal(lines) then 0 else 1) + (if HasBottom(lines) then 0 else 1)
    ensures forall i :: 0 <= i < |lines| && StartsWith(lines[i], NormalKey) ==> out[i] == NormalLine(c)
    ensures forall i :: 0 <= i < |lines| && !StartsWith(lines[i], NormalKey) && StartsWith(lines[i], BottomKey) ==>
              out[i] == BottomLine(c)
    ensures forall i :: 0 <= i < |lines| && !StartsWith(lines[i], NormalKey) && !StartsWith(lines[i], BottomKey) ==>
              out[i] == lines[i]
    ensures !HasNormal(lines) ==> out[|lines|] == NormalLine(c)
    ensures !HasBottom(lines) ==> out[|out| - 1] == BottomLine(c)
  {
    var mid := seq(|lines|, i requires 0 <= i < |lines| => Rewritten(lines[i], c));
    var normal := if HasNormal(lines) then [] else [NormalLine(c)];
    var bottom := if HasBottom(lines) then [] else [BottomLine(c)];
    var out := mid + normal + bottom;
    assert forall i :: 0 <= i < |lines| ==> out[i] == mid[i] == Rewritten(lines[i], c);
    out
  }

  /** Looking at one more line: a colour key is seen so far when it was seen before or is on that line. */
  lemma SeenStep(lines: seq<string>, i: nat)
    requires i < |lines|
    ensures HasNormal(lines[..i + 1]) <==> HasNormal(lines[..i]) || StartsWith(lines[i], NormalKey)
    ensures HasBottom(lines[..i + 1]) <==>
              HasBottom(lines[..i]) || (!StartsWith(lines[i], NormalKey) && StartsWith(lines[i], BottomKey))
  {
    var p, q := lines[..i], lines[..i + 1];
    assert forall k :: 0 <= k < i ==> q[k] == p[k];
    assert q[i] == lines[i];
    if HasNormal(q) && !StartsWith(lines[i], NormalKey) {
      var k :| 0 <= k < |q| && StartsWith(q[k], NormalKey);
      assert k < i && StartsWith(p[k], NormalKey);
    }
    if HasBottom(q) && !(!StartsWith(lines[i], NormalKey) && StartsWith(lines[i], BottomKey)) {
      var k :| 0 <= k < |q| && !StartsWith(q[k], NormalKey) && StartsWith(q[k], BottomKey);
      assert k < i && !StartsWith(p[k], NormalKey) && StartsWith(p[k], BottomKey);
    }
  }

  /** Once every line is rewritten, appending the missing colour lines gives the rewritten text. */
  lemma AppendMissing(lines: seq<string>, c: Rgb, mid: seq<string>)
    requires |mid| == |lines|
    requires forall k :: 0 <= k < |lines| ==> mid[k] == Rewritten(lines[k], c)
    ensures mid + (if HasNormal(lines) then [] else [NormalLine(c)]) + (if HasBottom(lines) then [] else [BottomLine(c)])
            == RewriteLines(lines, c)
  {
  }

  /** `_update_env_file(r, g, b)` on the lines read from the file: the loop replaces the
      colour lines in place and records which keys it saw; the missing ones are appended. */
  method UpdateEnvFile(lines: seq<string>, c: Rgb) returns (out: seq<string>)
    ensures out == RewriteLines(lines, c)
  {
    out := lines;
    var updated: set<string> := {};
    var i := 0;
    while i < |out|
      invariant 0 <= i <= |out| == |lines|
      invariant forall k :: 0 <= k < i ==> out[k] == Rewritten(lines[k], c)
      invariant forall k :: i <= k < |out| ==> out[k] == lines[k]
      invariant "normal" in updated <==> HasNormal(lines[..i])
      invariant "bottom" in updated <==> HasBottom(lines[..i])
    {
      SeenStep(lines, i);
      if StartsWith(out[i], NormalKey) {
        out := out[i := NormalLine(c)];
        updated := updated + {"normal"};
      } else if StartsWith(out[i], BottomKey) {
        out := out[i := BottomLine(c)];
        updated := updated + {"bottom"};
      }
      i := i + 1;
    }
    assert lines[..i] == lines;
    AppendMissing(lines, c, out);
    if "normal" !in updated {
      out := out + [NormalLine(c)];
    }
    if "bottom" !in updated {
      out := out + [BottomLine(c)];
    }
  }

  lemma KeysOfLines(c: Rgb)
    ensures StartsWith(NormalLine(c), NormalKey)
    ensures StartsWith(BottomLine(c), BottomKey) && !StartsWith(BottomLine(c), NormalKey)
  {
    assert NormalLine(c)[..|NormalKey|] == NormalKey;
    assert BottomLine(c)[..|BottomKey|] == BottomKey;
    assert BottomLine(c)[6] == 'G' != NormalKey[6];
  }

  /** Rewriting the text a second time with the same colour changes nothing. */
  lemma RewriteIdempotent(lines: seq<string>, c: Rgb)
    ensures RewriteLines(RewriteLines(lines, c), c) == RewriteLines(lines, c)
  {
    var out := RewriteLines(lines, c);
    KeysOfLines(c);
    if HasNormal(lines) {
      var i :| 0 <= i < |lines| && StartsWith(lines[i], NormalKey);
      assert StartsWith(out[i], NormalKey);
    } else {
      assert StartsWith(out[|lines|], NormalKey);
    }
    if HasBottom(lines) {
      var i :| 0 <= i < |lines| && !StartsWith(lines[i], NormalKey) && StartsWith(lines[i], BottomKey);
      assert out[i] == BottomLine(c);
    } else {
      assert out[|out| - 1] == BottomLine(c);
    }
    assert HasNormal(out) && HasBottom(out);
    var again := RewriteLines(out, c);
    assert |again| == |out|;
    forall k | 0 <= k < |out|
      ensures again[k] == out[k]
    {
      if k < |lines| {
        assert out[k] == Rewritten(lines[k], c);
      }
    }
  }

  /** The value written after each key reads back as the colour it stands for. */
  lemma LinesReadBack(c: Rgb)
    requires ValidRgb(c)
    ensures var l := NormalLine(c); RgbFromString(l[|NormalKey|..|l| - 1]) == Ok(c)
    ensures var l := BottomLine(c); RgbFromString(l[|BottomKey|..|l| - 1]) == Ok(GradientBottom(c))
  {
    var n, b := NormalLine(c), BottomLine(c);
    assert n[|NormalKey|..|n| - 1] == FormatRgb(c);
    assert b[|BottomKey|..|b| - 1] == FormatRgb(GradientBottom(c));
    RgbRoundTrip(c);
    RgbRoundTrip(GradientBottom(c));
  }
}
