/**
 * The image composer: the base image of a key (a text canvas, a resized picture, or
 * nothing) and the frames written to a key (a base image bare or with a play/stop icon
 * in its top-left corner, or an icon alone). Pixels are not modelled: an image records
 * what was drawn where.
 */
module Images {
  import opened Wrappers
  import opened Paths
  import opened Config

  /** The two embedded icons. */
  datatype Icon = PlayIcon | StopIcon

  /** One line of text drawn in white at the left edge, `y` pixels from the top. */
  datatype TextLine = TextLine(text: string, y: int)

  datatype Image =
    | Canvas(width: nat, height: nat, lines: seq<TextLine>)   // black canvas of the key's size with text lines
    | Picture(source: Path, boxWidth: nat, boxHeight: nat)   // a decoded file scaled to fit the key, aspect ratio kept

  /** What is written to one key. */
  datatype Frame =
    | Bare(base: Image)
    | Overlaid(base: Image, icon: Icon)
    | IconOnly(icon: Icon)

  datatype ImageError = ImageUnreadable(path: Path)

  /** Text size used when a button has text but no `text-size`. */
  const DefaultTextHeight: real := 15.0

  /** Line height as a multiple of the text size. */
  const LineHeight: real := 1.1

  /** Rounding to the nearest integer, halfway cases away from zero (Rust's `round`). */
  function Round(x: real): (r: int)
    ensures x - 0.5 <= r as real <= x + 0.5
    ensures x >= 0.0 ==> x - 0.5 < r as real
    ensures x < 0.0 ==> r as real < x + 0.5
  {
    if x >= 0.0 then (x + 0.5).Floor else -((0.5 - x).Floor)
  }

  /** Vertical distance between two consecutive text lines for a given text size. */
  function LineStep(size: real): int {
    Round(size * LineHeight)
  }

  /** A text size of 20 puts lines 22 pixels apart; the default size, 15, puts them 17 apart. */
  lemma LineStepExamples()
    ensures LineStep(20.0) == 22
    ensures LineStep(DefaultTextHeight) == 17
  {
    assert 20.0 * LineHeight == 22.0;
    assert DefaultTextHeight * LineHeight == 16.5;
  }

  /** The pieces of `s` between newlines (`split('\n')`): never empty, one more than the newlines. */
  function Lines(s: string): (r: seq<string>)
    ensures |r| >= 1
  {
    if s == [] then [""]
    else
      var rest := Lines(s[1..]);
      if s[0] == '\n' then [""] + rest else [[s[0]] + rest[0]] + rest[1..]
  }

  /** The pieces joined back together with a newline between consecutive ones. */
  function JoinLines(parts: seq<string>): string
    requires |parts| >= 1
  {
    if |parts| == 1 then parts[0] else parts[0] + "\n" + JoinLines(parts[1..])
  }

  function NewlineCount(s: string): nat {
    if s == [] then 0 else (if s[0] == '\n' then 1 else 0) + NewlineCount(s[1..])
  }

  /** Splitting loses nothing: joining the lines gives the text back. */
  lemma {:induction false} JoinSplitLines(s: string)
    ensures JoinLines(Lines(s)) == s
  {
    if s != [] {
      var rest := Lines(s[1..]);
      JoinSplitLines(s[1..]);
      if s[0] == '\n' {
        assert Lines(s)[1..] == rest;
        assert s == "\n" + s[1..];
      } else {
        var lines := Lines(s);
        assert lines[0] == [s[0]] + rest[0];
        if |rest| == 1 {
          assert s == [s[0]] + rest[0];
        } else {
          assert lines[1..] == rest[1..];
          assert JoinLines(rest) == rest[0] + "\n" + JoinLines(rest[1..]);
          assert s == [s[0]] + s[1..];
        }
      }
    }
  }

  /** Every line is newline-free, and there is exactly one more line than there are newlines. */
  lemma {:induction false} LinesShape(s: string)
    ensures |Lines(s)| == NewlineCount(s) + 1
    ensures forall i :: 0 <= i < |Lines(s)| ==> '\n' !in Lines(s)[i]
  {
    if s != [] {
      LinesShape(s[1..]);
      var rest := Lines(s[1..]);
      if s[0] != '\n' {
        assert '\n' !in [s[0]] + rest[0];
        assert forall i :: 1 <= i < |Lines(s)| ==> Lines(s)[i] == rest[i];
      } else {
        assert forall i :: 1 <= i < |Lines(s)| ==> Lines(s)[i] == rest[i - 1];
      }
    }
  }

  /** Where the lines of a text are drawn: line `i` at `y = i * step`. */
  function Layout(lines: seq<string>, step: int): (r: seq<TextLine>)
    ensures |r| == |lines|
    ensures forall i :: 0 <= i < |lines| ==> r[i] == TextLine(lines[i], i * step)
  {
    seq(|lines|, i requires 0 <= i < |lines| => TextLine(lines[i], i * step))
  }

  /**
   * The base image of a configured button: text first, then an image file, else none.
   * An image file that cannot be opened or decoded is an error.
   */
  function BaseImage(conf: ButtonConfig, width: nat, height: nat, readable: set<Path>): (r: Result<Option<Image>, ImageError>)
    ensures r.Err? <==> conf.text.None? && conf.image.Some? && conf.image.value !in readable
    ensures r.Err? ==> r.error == ImageUnreadable(conf.image.value)
    ensures r == Ok(None) <==> conf.text.None? && conf.image.None?
    ensures r.Ok? && r.value.Some? ==> (r.value.value.Canvas? <==> conf.text.Some?)
  {
    if conf.text.Some? then
      var step := LineStep(conf.textSize.GetOr(DefaultTextHeight));
      Ok(Some(Canvas(width, height, Layout(Lines(conf.text.value), step))))
    else if conf.image.Some? then
      if conf.image.value in readable then Ok(Some(Picture(conf.image.value, width, height)))
      else Err(ImageUnreadable(conf.image.value))
    else Ok(None)
  }

  /**
   * A button with text gets a canvas of the key's size, whatever image file it also names:
   * the canvas holds the text's newline-free lines, together exactly the text, with line
   * `i` drawn `i` line steps from the top.
   */
  lemma {:induction false} TextBeatsImage(conf: ButtonConfig, width: nat, height: nat, readable: set<Path>)
    requires conf.text.Some?
    ensures var r := BaseImage(conf, width, height, readable);
      && r.Ok? && r.value.Some? && r.value.value.Canvas?
      && r.value.value.width == width && r.value.value.height == height
      && var drawn := r.value.value.lines;
      && |drawn| == NewlineCount(conf.text.value) + 1
      && (forall i :: 0 <= i < |drawn| ==> '\n' !in drawn[i].text)
      && (forall i :: 0 <= i < |drawn| ==> drawn[i].y == i * LineStep(conf.textSize.GetOr(DefaultTextHeight)))
      && JoinLines(seq(|drawn|, i requires 0 <= i < |drawn| => drawn[i].text)) == conf.text.value
  {
    var lines := Lines(conf.text.value);
    var drawn := Layout(lines, LineStep(conf.textSize.GetOr(DefaultTextHeight)));
    LinesShape(conf.text.value);
    JoinSplitLines(conf.text.value);
    assert seq(|drawn|, i requires 0 <= i < |drawn| => drawn[i].text) == lines;
  }

  /** Without text, an image file gives a picture fitted to the key, or an error when it cannot be read. */
  lemma ImageWithoutText(conf: ButtonConfig, width: nat, height: nat, readable: set<Path>)
    requires conf.text.None? && conf.image.Some?
    ensures conf.image.value in readable ==>
              BaseImage(conf, width, height, readable) == Ok(Some(Picture(conf.image.value, width, height)))
    ensures conf.image.value !in readable ==>
              BaseImage(conf, width, height, readable) == Err(ImageUnreadable(conf.image.value))
  {
  }

  /**
   * `prepare_image`: draws the text lines one after another, moving down by the line
   * step after each, or loads the image file.
   */
  method PrepareImage(conf: ButtonConfig, width: nat, height: nat, readable: set<Path>)
    returns (r: Result<Option<Image>, ImageError>)
    ensures r == BaseImage(conf, width, height, readable)
  {
    if conf.text.Some? {
      var size := conf.textSize.GetOr(DefaultTextHeight);
      var step := LineStep(size);
      var lines := Lines(conf.text.value);
      var drawn: seq<TextLine> := [];
      var y := 0;
      for i := 0 to |lines|
        invariant y == i * step
        invariant |drawn| == i
        invariant forall j :: 0 <= j < i ==> drawn[j] == TextLine(lines[j], j * step)
      {
        drawn := drawn + [TextLine(lines[i], y)];
        y := y + step;
      }
      assert drawn == Layout(lines, step);
      r := Ok(Some(Canvas(width, height, drawn)));
    } else if conf.image.Some? {
      var path := conf.image.value;
      if path in readable {
        r := Ok(Some(Picture(path, width, height)));
      } else {
        r := Err(ImageUnreadable(path));
      }
    } else {
      r := Ok(None);
    }
  }
}
