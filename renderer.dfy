/** js/renderer.js: `drawKeys`, which fits the physical layout into the canvas, draws one key cap per key
    position with the label of the current layer, remembers where each cap went (`keyRects`) and
    registers every drawn label in the shared map of pressed keys. The canvas calls themselves (shadows,
    rounded rectangles, fonts, the circle of the `myakumyaku` theme) are not modelled; what is kept of each
    key is its place, its label and the colour it is filled with. */
module Renderer {
  import opened Text
  import opened KeyLabels
  import opened PhysicalLayout

  /** The six colours a theme gives the renderer. */
  datatype Colors = Colors(normal: string, special: string, pressed: string, stroke: string, bg: string,
                           text: string)

  /** The `themeColors` table; `None` for a name the table does not hold, where `colors` is undefined and
      the first use of it throws. In every theme a pressed key, a transparent key and an ordinary key
      are filled differently. */
  function ThemeColors(theme: string): (c: Option<Colors>)
    ensures c.Some? ==> c.value.pressed != c.value.normal && c.value.pressed != c.value.special
                        && c.value.special != c.value.normal
  {
    match theme
    case "light" => Some(Colors("#f3f4f6", "#e5e7eb", "#fef3c7", "#9ca3af", "#ffffff", "#1f2937"))
    case "dark" => Some(Colors("#374151", "#1f2937", "#92400e", "#6b7280", "#111827", "#ffffff"))
    case "blue" => Some(Colors("#dbeafe", "#bfdbfe", "#ffb347", "#60a5fa", "#eff6ff", "#1e40af"))
    case "green" => Some(Colors("#d1fae5", "#a7f3d0", "#ffe066", "#34d399", "#ecfdf5", "#065f46"))
    case "console" => Some(Colors("#003300", "#001a00", "#00ff00", "#00ff00", "#000000", "#00ff00"))
    case "myakumyaku" => Some(Colors("#ff0000", "#0066cc", "#000000", "#ffffff", "#0066cc", "#000000"))
    case _ => None
  }

  /** The label drawn on key `i`: the normalised binding of the layer, or `?` where the layer has no
      binding for that key or an empty one. */
  function KeyLabel(keymap: seq<string>, i: nat): (shown: string)
    ensures i < |keymap| && keymap[i] != [] ==> shown == NormalizeKeyLabel(keymap[i])
    ensures !(i < |keymap| && keymap[i] != []) ==> shown == "?"
  {
    NormalizeKeyLabel(if i < |keymap| && keymap[i] != [] then keymap[i] else "?")
  }

  /** The labels of all keys, in the order of the key positions. */
  function Labels(positions: seq<KeyGeometry>, keymap: seq<string>): (ls: seq<string>)
    ensures |ls| == |positions|
    ensures forall i :: 0 <= i < |ls| ==> ls[i] == KeyLabel(keymap, i)
  {
    seq(|positions|, i requires 0 <= i < |positions| => KeyLabel(keymap, i))
  }

  /** Whether `keyStates[name]` is truthy. */
  predicate Pressed(entries: map<string, bool>, name: string)
  {
    name in entries && entries[name]
  }

  /** The fill of one key cap: pressed keys in the pressed colour, otherwise the transparent binding
      `---` in the special colour and every other key in the normal one. */
  function Fill(c: Colors, name: string, entries: map<string, bool>): string
  {
    if Pressed(entries, name) then c.pressed else if name == "---" then c.special else c.normal
  }

  /** The fills of a row of key caps. */
  function Fills(c: Colors, names: seq<string>, entries: map<string, bool>): (fs: seq<string>)
    ensures |fs| == |names|
    ensures forall i :: 0 <= i < |fs| ==> fs[i] == Fill(c, names[i], entries)
  {
    seq(|names|, i requires 0 <= i < |names| => Fill(c, names[i], entries))
  }

  /** With the colours of a theme, the fill tells the three cases apart: the pressed colour exactly for a
      pressed key (the press wins over `---`), the special colour exactly for an unpressed `---`. */
  lemma {:induction false} FillShowsState(theme: string, name: string, entries: map<string, bool>)
    requires ThemeColors(theme).Some?
    ensures Fill(ThemeColors(theme).value, name, entries) == ThemeColors(theme).value.pressed
            <==> Pressed(entries, name)
    ensures Fill(ThemeColors(theme).value, name, entries) == ThemeColors(theme).value.special
            <==> !Pressed(entries, name) && name == "---"
    ensures Fill(ThemeColors(theme).value, name, entries) == ThemeColors(theme).value.normal
            <==> !Pressed(entries, name) && name != "---"
  {
  }

  /** `if (!(name in keyStates)) keyStates[name] = false` */
  function Register(entries: map<string, bool>, name: string): map<string, bool>
  {
    if name in entries then entries else entries[name := false]
  }

  /** `keyStates` after a drawing has registered the labels in order. */
  function Registered(entries: map<string, bool>, names: seq<string>): map<string, bool>
  {
    if names == [] then entries else Register(Registered(entries, names[..|names| - 1]), names[|names| - 1])
  }

  /** After a drawing every drawn label is a key, the keys that were there keep their value and the new
      ones are `false`. */
  lemma {:induction false} RegisteredKeeps(entries: map<string, bool>, names: seq<string>)
    ensures forall l :: l in Registered(entries, names) <==> l in entries || l in names
    ensures forall l :: l in entries ==> Registered(entries, names)[l] == entries[l]
    ensures forall l :: l in Registered(entries, names) && l !in entries ==> !Registered(entries, names)[l]
    decreases |names|
  {
    if names != [] {
      var init := names[..|names| - 1];
      RegisteredKeeps(entries, init);
      assert names == init + [names[|names| - 1]];
    }
  }

  /** Registering labels never presses a key, so the fills stay what they were before. */
  lemma {:induction false} RegisteredPresses(entries: map<string, bool>, names: seq<string>, name: string)
    ensures Pressed(Registered(entries, names), name) <==> Pressed(entries, name)
  {
    RegisteredKeeps(entries, names);
  }

  /** Drawing the same keys again adds nothing: the second drawing leaves `keyStates` as the first left
      it. */
  lemma {:induction false} RegisteredTwice(entries: map<string, bool>, names: seq<string>)
    ensures Registered(Registered(entries, names), names) == Registered(entries, names)
  {
    RegisteredKeeps(entries, names);
    assert forall k :: 0 <= k < |names| ==> names[k] in names;
    RegisteredStable(Registered(entries, names), names);
  }

  /** Registering labels that are all keys already changes nothing. */
  lemma {:induction false} RegisteredStable(entries: map<string, bool>, names: seq<string>)
    requires forall k :: 0 <= k < |names| ==> names[k] in entries
    ensures Registered(entries, names) == entries
    decreases |names|
  {
    if names != [] {
      RegisteredStable(entries, names[..|names| - 1]);
    }
  }

  // -----------------------------------------------------------------------------------------------------
  // Fitting the layout into the canvas
  // -----------------------------------------------------------------------------------------------------

  /** `Math.min(...xs)` over a non-empty list. */
  function MinOf(xs: seq<real>): (m: real)
    requires |xs| >= 1
    ensures forall k :: 0 <= k < |xs| ==> m <= xs[k]
    ensures m in xs
  {
    if |xs| == 1 then xs[0]
    else
      var rest := MinOf(xs[1..]);
      if xs[0] <= rest then xs[0] else rest
  }

  /** `Math.max(...xs)` over a non-empty list. */
  function MaxOf(xs: seq<real>): (m: real)
    requires |xs| >= 1
    ensures forall k :: 0 <= k < |xs| ==> xs[k] <= m
    ensures m in xs
  {
    if |xs| == 1 then xs[0]
    else
      var rest := MaxOf(xs[1..]);
      if xs[0] >= rest then xs[0] else rest
  }

  /** The box around all keys as their unrotated positions give it. */
  datatype Bounds = Bounds(minX: real, minY: real, maxX: real, maxY: real)

  function LayoutBounds(ps: seq<KeyGeometry>): Bounds
    requires |ps| >= 1
  {
    Bounds(MinOf(Column(ps, (k: KeyGeometry) => k.x)), MinOf(Column(ps, (k: KeyGeometry) => k.y)),
           MaxOf(Column(ps, (k: KeyGeometry) => k.x + k.w)), MaxOf(Column(ps, (k: KeyGeometry) => k.y + k.h)))
  }

  /** Every key lies within the layout box. */
  lemma KeyInBounds(ps: seq<KeyGeometry>, i: nat)
    requires i < |ps|
    ensures var b := LayoutBounds(ps);
            b.minX <= ps[i].x && ps[i].x + ps[i].w <= b.maxX && b.minY <= ps[i].y && ps[i].y + ps[i].h <= b.maxY
  {
    assert Column(ps, (k: KeyGeometry) => k.x)[i] == ps[i].x;
    assert Column(ps, (k: KeyGeometry) => k.y)[i] == ps[i].y;
    assert Column(ps, (k: KeyGeometry) => k.x + k.w)[i] == ps[i].x + ps[i].w;
    assert Column(ps, (k: KeyGeometry) => k.y + k.h)[i] == ps[i].y + ps[i].h;
  }

  /** A box whose width and height are not negative and not both zero: on a canvas of positive size,
      the boxes `drawKeys` scales to a finite size. */
  predicate Spread(b: Bounds)
  {
    b.maxX >= b.minX && b.maxY >= b.minY && (b.maxX > b.minX || b.maxY > b.minY)
  }

  /** `ps.map(field)`: one value per key, in order. */
  function Column(ps: seq<KeyGeometry>, field: KeyGeometry -> real): (xs: seq<real>)
    ensures |xs| == |ps|
    ensures forall i :: 0 <= i < |ps| ==> xs[i] == field(ps[i])
  {
    if ps == [] then [] else Column(ps[..|ps| - 1], field) + [field(ps[|ps| - 1])]
  }

  /** The scale and offsets that map layout units to canvas pixels. */
  datatype Fit = Fit(scale: real, offsetX: real, offsetY: real)

  function Min(a: real, b: real): real { if a <= b then a else b }

  /** Along one axis from `lo` to `hi`, the offset that centres the scaled extent in `size`. */
  function AxisOffset(lo: real, hi: real, size: real, s: real): real
  {
    (size - (hi - lo) * s) / 2.0 - lo * s
  }

  /** A JavaScript number as the scale computation can produce it: finite, an infinity, or NaN. */
  datatype Number = Finite(value: real) | PosInfinity | NegInfinity | NaN

  /** `a / d` on JavaScript numbers: a finite quotient for a non-zero divisor; over zero, an infinity of the
      numerator's sign, or NaN for `0 / 0`. The divisors here are differences `max - min`, which are `+0`
      when they are zero. */
  function Divide(a: real, d: real): (q: Number)
    ensures q.Finite? <==> d != 0.0
    ensures q.Finite? ==> q.value * d == a
    ensures q.PosInfinity? <==> d == 0.0 && a > 0.0
    ensures q.NaN? <==> d == 0.0 && a == 0.0
  {
    if d != 0.0 then Finite(a / d) else if a > 0.0 then PosInfinity else if a < 0.0 then NegInfinity else NaN
  }

  /** The order of the non-NaN numbers. */
  predicate AtMost(a: Number, b: Number)
  {
    match (a, b)
    case (NegInfinity, _) => !b.NaN?
    case (_, PosInfinity) => !a.NaN?
    case (Finite(x), Finite(y)) => x <= y
    case _ => false
  }

  /** `Math.min(a, b)`: NaN when either is NaN, otherwise the smaller of the two. */
  function MinNumber(a: Number, b: Number): (m: Number)
    ensures m.NaN? <==> a.NaN? || b.NaN?
    ensures !m.NaN? ==> (m == a || m == b) && AtMost(m, a) && AtMost(m, b)
  {
    if a.NaN? || b.NaN? then NaN else if AtMost(a, b) then a else b
  }

  /** `autoScale` of `drawKeys`: the smaller of the scales that make the layout's width and height 90% of
      the canvas's. */
  function AutoScale(b: Bounds, canvasWidth: real, canvasHeight: real): Number
  {
    MinNumber(Divide(canvasWidth * 0.9, b.maxX - b.minX), Divide(canvasHeight * 0.9, b.maxY - b.minY))
  }

  /** The scale and offsets for a layout box: the layout takes 90% of the canvas in its limiting
      direction and is centred. When one extent is zero its scale is an infinity, `Math.min` picks the
      other, finite one, and the layout is still drawn. `None` where `autoScale` is not finite: both
      extents are zero, or a zero extent meets a canvas side that is zero (`0 / 0` is NaN) or negative.
      A non-finite scale makes the offsets and every coordinate non-finite. */
  function FitFor(b: Bounds, canvasWidth: real, canvasHeight: real): (f: Option<Fit>)
    ensures f.Some? <==> && (b.maxX != b.minX || canvasWidth > 0.0)
                         && (b.maxY != b.minY || canvasHeight > 0.0)
                         && (b.maxX != b.minX || b.maxY != b.minY)
    ensures f.Some? ==> f.value.offsetX == AxisOffset(b.minX, b.maxX, canvasWidth, f.value.scale)
                        && f.value.offsetY == AxisOffset(b.minY, b.maxY, canvasHeight, f.value.scale)
  {
    match AutoScale(b, canvasWidth, canvasHeight)
    case Finite(scale) =>
      Some(Fit(scale, AxisOffset(b.minX, b.maxX, canvasWidth, scale),
               AxisOffset(b.minY, b.maxY, canvasHeight, scale)))
    case _ => None
  }

  /** A layout of no width, 100 units high, on an 800 by 600 canvas: the width scale is infinite, so the
      height scale 5.4 is used, and the layout is drawn as a vertical line in the middle of the canvas,
      540 pixels high, 30 pixels from the top. */
  lemma {:induction false} ZeroWidthFit()
    ensures FitFor(Bounds(0.0, 0.0, 0.0, 100.0), 800.0, 600.0) == Some(Fit(5.4, 400.0, 30.0))
  {
    assert Divide(800.0 * 0.9, 0.0 - 0.0) == PosInfinity;
    assert Divide(600.0 * 0.9, 100.0 - 0.0) == Finite(5.4);
  }

  /** The auto scale of `drawKeys` for the keys `ps`. */
  function AutoFit(ps: seq<KeyGeometry>, canvasWidth: real, canvasHeight: real): Option<Fit>
    requires |ps| >= 1
  {
    FitFor(LayoutBounds(ps), canvasWidth, canvasHeight)
  }

  /** On a canvas of positive size, a layout box that is not a single point, and whose width and height
      are not negative, is scaled to fill 90% of the canvas in one direction and at most 90% in the other,
      and is centred: the margins left and right of it are equal, and so are those above and below it.
      A box of no width fills 90% of the height, and one of no height 90% of the width. */
  lemma {:induction false} FitCentres(b: Bounds, canvasWidth: real, canvasHeight: real)
    requires canvasWidth > 0.0 && canvasHeight > 0.0
    requires Spread(b)
    ensures FitFor(b, canvasWidth, canvasHeight).Some?
    ensures var f := FitFor(b, canvasWidth, canvasHeight).value;
            && f.scale > 0.0
            && (b.maxX - b.minX) * f.scale <= canvasWidth * 0.9
            && (b.maxY - b.minY) * f.scale <= canvasHeight * 0.9
            && ((b.maxX - b.minX) * f.scale == canvasWidth * 0.9
                || (b.maxY - b.minY) * f.scale == canvasHeight * 0.9)
            && (b.maxX == b.minX ==> (b.maxY - b.minY) * f.scale == canvasHeight * 0.9)
            && (b.maxY == b.minY ==> (b.maxX - b.minX) * f.scale == canvasWidth * 0.9)
            && b.minX * f.scale + f.offsetX == canvasWidth - (b.maxX * f.scale + f.offsetX)
            && b.minY * f.scale + f.offsetY == canvasHeight - (b.maxY * f.scale + f.offsetY)
            && f.offsetX == AxisOffset(b.minX, b.maxX, canvasWidth, f.scale)
            && f.offsetY == AxisOffset(b.minY, b.maxY, canvasHeight, f.scale)
  {
    var lw, lh := b.maxX - b.minX, b.maxY - b.minY;
    var ws, hs := Divide(canvasWidth * 0.9, lw), Divide(canvasHeight * 0.9, lh);
    var s := FitFor(b, canvasWidth, canvasHeight).value.scale;
    if lw == 0.0 {
      assert ws == PosInfinity && hs.Finite? && s == hs.value;
      ScaleWithin(lh, canvasHeight * 0.9, s);
    } else if lh == 0.0 {
      assert hs == PosInfinity && ws.Finite? && s == ws.value;
      ScaleWithin(lw, canvasWidth * 0.9, s);
    } else {
      assert ws.Finite? && hs.Finite? && (s == ws.value || s == hs.value) && s <= ws.value && s <= hs.value;
      ScaleWithin(lw, canvasWidth * 0.9, s);
      ScaleWithin(lh, canvasHeight * 0.9, s);
    }
    Centred(b.minX, b.maxX, canvasWidth, s);
    Centred(b.minY, b.maxY, canvasHeight, s);
  }

  /** Along one axis: a scale no larger than `room / extent` keeps the extent within `room`, and the one
      equal to it fills it. */
  lemma {:induction false} ScaleWithin(extent: real, room: real, s: real)
    requires extent > 0.0 && room > 0.0
    requires s <= room / extent
    ensures extent * s <= room
    ensures s == room / extent ==> extent * s == room
    ensures s > 0.0 <== s == room / extent
  {
    assert extent * (room / extent) == room;
  }

  /** Along one axis: the centring offset leaves equal margins on both sides. */
  lemma {:induction false} Centred(lo: real, hi: real, size: real, s: real)
    ensures lo * s + AxisOffset(lo, hi, size, s) == size - (hi * s + AxisOffset(lo, hi, size, s))
  {
    assert (hi - lo) * s == hi * s - lo * s;
  }

  /** Along one axis: a key inside the layout extent, scaled by a positive scale that keeps the extent
      within 90% of `size` and centred, lies at least 5% of `size` from either end. */
  lemma {:induction false} AxisInside(lo: real, hi: real, size: real, s: real, x: real, w: real)
    requires s > 0.0 && size > 0.0
    requires (hi - lo) * s <= size * 0.9
    requires lo <= x && x + w <= hi
    ensures size * 0.05 <= x * s + AxisOffset(lo, hi, size, s)
    ensures x * s + AxisOffset(lo, hi, size, s) + w * s <= size * 0.95
  {
    var offset := AxisOffset(lo, hi, size, s);
    Centred(lo, hi, size, s);
    assert lo * s + offset == (size - (hi - lo) * s) / 2.0;
    assert lo * s <= x * s;
    assert x * s + w * s == (x + w) * s <= hi * s;
  }

  /** Where a key cap goes: its corner and size in canvas pixels, `None` when the fit is not finite. */
  datatype Box = Box(x: real, y: real, w: real, h: real)

  /** One entry of `keyRects`. */
  datatype KeyRect = KeyRect(name: string, box: Option<Box>, r: real)

  /** The corner of a key before scaling: rotated about its pivot when it has a rotation. `rotatePoint`
      of js/utils.js is trigonometry on floating point numbers and is the parameter `rotate`. */
  function Corner(key: KeyGeometry, rotate: (real, real, real, real, real) -> (real, real)): (real, real)
  {
    if key.r != 0.0 then rotate(key.x, key.y, key.rx, key.ry, key.r) else (key.x, key.y)
  }

  function Place(key: KeyGeometry, fit: Option<Fit>, rotate: (real, real, real, real, real) -> (real, real))
    : Option<Box>
  {
    match fit
    case None => None
    case Some(f) =>
      var p := Corner(key, rotate);
      Some(Box(p.0 * f.scale + f.offsetX, p.1 * f.scale + f.offsetY, key.w * f.scale, key.h * f.scale))
  }

  /** Every unrotated key lands inside a canvas of positive size, at least 5% of the canvas away from each
      edge. This holds for a layout whose box is not a single point and has no negative side, and so also
      for a layout of no width or of no height. */
  lemma {:induction false} UnrotatedKeysInside(ps: seq<KeyGeometry>, canvasWidth: real, canvasHeight: real,
                                               rotate: (real, real, real, real, real) -> (real, real), i: nat)
    requires i < |ps| && ps[i].r == 0.0
    requires canvasWidth > 0.0 && canvasHeight > 0.0
    requires Spread(LayoutBounds(ps))
    ensures Place(ps[i], AutoFit(ps, canvasWidth, canvasHeight), rotate).Some?
    ensures var box := Place(ps[i], AutoFit(ps, canvasWidth, canvasHeight), rotate).value;
            && canvasWidth * 0.05 <= box.x && box.x + box.w <= canvasWidth * 0.95
            && canvasHeight * 0.05 <= box.y && box.y + box.h <= canvasHeight * 0.95
  {
    KeyInBounds(ps, i);
    FitKeepsInside(LayoutBounds(ps), ps[i], canvasWidth, canvasHeight, rotate);
  }

  /** `UnrotatedKeysInside` for one unrotated key inside a box that `Spread` admits, fitted by `FitFor`. */
  lemma {:induction false} FitKeepsInside(b: Bounds, key: KeyGeometry, canvasWidth: real, canvasHeight: real,
                                          rotate: (real, real, real, real, real) -> (real, real))
    requires key.r == 0.0 && canvasWidth > 0.0 && canvasHeight > 0.0 && Spread(b)
    requires b.minX <= key.x && key.x + key.w <= b.maxX && b.minY <= key.y && key.y + key.h <= b.maxY
    ensures Place(key, FitFor(b, canvasWidth, canvasHeight), rotate).Some?
    ensures var box := Place(key, FitFor(b, canvasWidth, canvasHeight), rotate).value;
            && canvasWidth * 0.05 <= box.x && box.x + box.w <= canvasWidth * 0.95
            && canvasHeight * 0.05 <= box.y && box.y + box.h <= canvasHeight * 0.95
  {
    FitWithin(b, canvasWidth, canvasHeight);
    KeyInside(b, FitFor(b, canvasWidth, canvasHeight).value, key, canvasWidth, canvasHeight, rotate);
  }

  /** The part of `FitCentres` that keeps keys inside the canvas. */
  lemma {:induction false} FitWithin(b: Bounds, canvasWidth: real, canvasHeight: real)
    requires canvasWidth > 0.0 && canvasHeight > 0.0
    requires Spread(b)
    ensures FitFor(b, canvasWidth, canvasHeight).Some?
    ensures var f := FitFor(b, canvasWidth, canvasHeight).value;
            && f.scale > 0.0
            && (b.maxX - b.minX) * f.scale <= canvasWidth * 0.9
            && (b.maxY - b.minY) * f.scale <= canvasHeight * 0.9
            && f.offsetX == AxisOffset(b.minX, b.maxX, canvasWidth, f.scale)
            && f.offsetY == AxisOffset(b.minY, b.maxY, canvasHeight, f.scale)
  {
    FitCentres(b, canvasWidth, canvasHeight);
  }

  /** `UnrotatedKeysInside` for one key inside a layout box and a fit that keeps the box within 90% of
      the canvas and centres it. */
  lemma {:induction false} KeyInside(b: Bounds, f: Fit, key: KeyGeometry, canvasWidth: real,
                                     canvasHeight: real, rotate: (real, real, real, real, real) -> (real, real))
    requires key.r == 0.0 && canvasWidth > 0.0 && canvasHeight > 0.0 && f.scale > 0.0
    requires (b.maxX - b.minX) * f.scale <= canvasWidth * 0.9 && (b.maxY - b.minY) * f.scale <= canvasHeight * 0.9
    requires f.offsetX == AxisOffset(b.minX, b.maxX, canvasWidth, f.scale)
    requires f.offsetY == AxisOffset(b.minY, b.maxY, canvasHeight, f.scale)
    requires b.minX <= key.x && key.x + key.w <= b.maxX && b.minY <= key.y && key.y + key.h <= b.maxY
    ensures Place(key, Some(f), rotate).Some?
    ensures var box := Place(key, Some(f), rotate).value;
            && canvasWidth * 0.05 <= box.x && box.x + box.w <= canvasWidth * 0.95
            && canvasHeight * 0.05 <= box.y && box.y + box.h <= canvasHeight * 0.95
  {
    AxisInside(b.minX, b.maxX, canvasWidth, f.scale, key.x, key.w);
    AxisInside(b.minY, b.maxY, canvasHeight, f.scale, key.y, key.h);
    assert Corner(key, rotate) == (key.x, key.y);
  }

  /** The entry of `keyRects` for key `i`, drawn with the label `names[i]`. */
  function RectAt(ps: seq<KeyGeometry>, names: seq<string>, fit: Option<Fit>,
                  rotate: (real, real, real, real, real) -> (real, real), i: nat): KeyRect
    requires i < |ps| && i < |names|
  {
    KeyRect(names[i], Place(ps[i], fit, rotate), ps[i].r)
  }

  /** `keyRects` after drawing the keys `ps` with the labels `names`: one entry per key, in order. */
  function Rects(ps: seq<KeyGeometry>, names: seq<string>, fit: Option<Fit>,
                 rotate: (real, real, real, real, real) -> (real, real)): (rs: seq<KeyRect>)
    requires |names| == |ps|
    ensures |rs| == |ps|
    ensures forall i :: 0 <= i < |rs| ==> rs[i] == RectAt(ps, names, fit, rotate, i)
  {
    seq(|ps|, i requires 0 <= i < |ps| => RectAt(ps, names, fit, rotate, i))
  }

  // -----------------------------------------------------------------------------------------------------
  // drawKeys
  // -----------------------------------------------------------------------------------------------------

  /** The `keyStates` object that js/main.js owns and `drawKeys` extends: label to pressed. */
  class PressStates {
    var entries: map<string, bool>

    constructor()
      ensures entries == map[]
    {
      entries := map[];
    }
  }

  /** How a call of `drawKeys` ends: the early return for an empty layout or layer, the exception thrown
      for a theme name outside the table, or a drawing with the fill of each key cap in order. */
  datatype Drawing = NothingToDraw | UnknownTheme | Drawn(fills: seq<string>)

  /** What `drawKeys` draws, given the pressed states it starts from. */
  function DrawingOf(ps: seq<KeyGeometry>, keymap: seq<string>, theme: string, entries: map<string, bool>)
    : (d: Drawing)
    ensures d.Drawn? ==> |d.fills| == |ps| && ThemeColors(theme).Some?
    ensures d.Drawn? ==> forall i :: 0 <= i < |ps| ==>
              (d.fills[i] == ThemeColors(theme).value.pressed <==> Pressed(entries, KeyLabel(keymap, i)))
  {
    if |ps| == 0 || |keymap| == 0 then NothingToDraw
    else match ThemeColors(theme)
      case None => UnknownTheme
      case Some(c) =>
        var ls := Labels(ps, keymap);
        var d := Drawn(Fills(c, ls, entries));
        assert forall i :: 0 <= i < |ps| ==>
          (d.fills[i] == c.pressed <==> Pressed(entries, KeyLabel(keymap, i))) by {
          forall i | 0 <= i < |ps| {
            FillShowsState(theme, ls[i], entries);
          }
        }
        d
  }

  /** The module state of js/renderer.js. */
  class Canvas {
    /** Where the last drawing put each key cap, for hit-testing by label. */
    var keyRects: seq<KeyRect>

    constructor()
      ensures keyRects == []
    {
      keyRects := [];
    }

    /** `drawKeys`: `keyRects` starts over; an empty layout or layer draws nothing; an unknown theme fails
        before the first key; otherwise every key position gets its rect in order, and its name is
        registered in `keyStates` as not pressed unless it is there already. */
    method DrawKeys(ps: seq<KeyGeometry>, keymap: seq<string>, theme: string, keyStates: PressStates,
                    canvasWidth: real, canvasHeight: real,
                    rotate: (real, real, real, real, real) -> (real, real))
      returns (drawing: Drawing)
      modifies this, keyStates
      ensures drawing == DrawingOf(ps, keymap, theme, old(keyStates.entries))
      ensures keyRects == if drawing.Drawn?
                          then Rects(ps, Labels(ps, keymap), AutoFit(ps, canvasWidth, canvasHeight), rotate)
                          else []
      ensures keyStates.entries == if drawing.Drawn? then Registered(old(keyStates.entries), Labels(ps, keymap))
                                   else old(keyStates.entries)
    {
      keyRects := [];
      if |ps| == 0 || |keymap| == 0 {
        return NothingToDraw;
      }
      var colors := ThemeColors(theme);
      if colors.None? {
        return UnknownTheme;
      }
      var fit := AutoFit(ps, canvasWidth, canvasHeight);
      var names := Labels(ps, keymap);
      var rects, fills := DrawEach(ps, names, colors.value, fit, keyStates, rotate);
      keyRects := rects;
      drawing := Drawn(fills);
    }
  }

  /** The `forEach` of `drawKeys`, with the label of each key already worked out (it depends on the
      layer and the index only): for each key position in order, its rect and the fill of its cap; its
      label is registered in `keyStates` as not pressed unless it is there already. */
  method DrawEach(ps: seq<KeyGeometry>, names: seq<string>, c: Colors, fit: Option<Fit>,
                  keyStates: PressStates, rotate: (real, real, real, real, real) -> (real, real))
    returns (rects: seq<KeyRect>, fills: seq<string>)
    requires |names| == |ps|
    modifies keyStates
    ensures rects == Rects(ps, names, fit, rotate)
    ensures fills == Fills(c, names, old(keyStates.entries))
    ensures keyStates.entries == Registered(old(keyStates.entries), names)
  {
    ghost var start := keyStates.entries;
    rects, fills := [], [];
    var i := 0;
    while i < |ps|
      invariant i <= |ps|
      invariant |rects| == i && forall k :: 0 <= k < i ==> rects[k] == RectAt(ps, names, fit, rotate, k)
      invariant |fills| == i && forall k :: 0 <= k < i ==> fills[k] == Fill(c, names[k], start)
      invariant keyStates.entries == Registered(start, names[..i])
    {
      var name := names[i];
      var fill := Fill(c, name, keyStates.entries);
      RegisteredPresses(start, names[..i], name);
      rects := rects + [RectAt(ps, names, fit, rotate, i)];
      fills := fills + [fill];
      assert names[..i + 1][..i] == names[..i];
      if name !in keyStates.entries {
        keyStates.entries := keyStates.entries[name := false];
      }
      i := i + 1;
    }
    assert names[..|ps|] == names;
  }
}
