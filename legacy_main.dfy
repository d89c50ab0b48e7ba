/** main.js, the first single-file version of the viewer: a smaller `normalizeKeyLabel` table, a JSON
    layout reader fixed on `layouts.layout_US`, and a keymap reader that keeps no layers and returns one
    flat list of labels. */
module LegacyMain {
  import opened Text
  import KeyLabels
  import PhysicalLayout
  import Keymap
  import Bindings

  // ---------------------------------------------------------------------------------------------------
  // normalizeKeyLabel (main.js:2-14)
  // ---------------------------------------------------------------------------------------------------

  /** The `keyMapping` table of main.js; `None` for a token that is not one of its names. */
  function LegacyMapping(token: string): (v: Option<string>)
    ensures v.Some? ==> v.value != []
  {
    match token
    case "N1" => Some("1") case "N2" => Some("2") case "N3" => Some("3") case "N4" => Some("4")
    case "N5" => Some("5") case "N6" => Some("6") case "N7" => Some("7") case "N8" => Some("8")
    case "N9" => Some("9") case "N0" => Some("0")
    case "LALT" => Some("ALT") case "RALT" => Some("ALT")
    case "LSHFT" => Some("SHIFT") case "LSHIFT" => Some("SHIFT")
    case "RSHFT" => Some("SHIFT") case "RSHIFT" => Some("SHIFT")
    case "LCTRL" => Some("CTRL") case "RCTRL" => Some("CTRL")
    case "LGUI" => Some("WIN") case "RGUI" => Some("WIN")
    case "SPACE" => Some("SPACE") case "ENTER" => Some("ENTER") case "ESC" => Some("ESC")
    case "BKSP" => Some("BACKSPACE") case "BSPC" => Some("BACKSPACE") case "INT3" => Some("INT3")
    case "TAB" => Some("TAB")
    case "F13" => Some("F13") case "F14" => Some("F14") case "F15" => Some("F15")
    case "F16" => Some("F16") case "F17" => Some("F17") case "F18" => Some("F18")
    case "TRANS" => Some("---")
    case _ => None
  }

  /** The names this table maps to themselves. */
  predicate LegacySelfMapped(token: string)
  {
    token == "SPACE" || token == "ENTER" || token == "ESC" || token == "INT3" || token == "TAB"
    || token == "F13" || token == "F14" || token == "F15" || token == "F16" || token == "F17" || token == "F18"
  }

  /** `keyMapping[label] || label`: no value of the table is empty, so the fallback applies exactly to
      the tokens outside it. */
  function LegacyNormalize(token: string): string
  {
    match LegacyMapping(token)
    case Some(v) => v
    case None => token
  }

  /** A token outside the table passes through, and every result is either outside the table or one of
      the names the table maps to themselves. */
  lemma {:induction false} LegacyNormalForm(token: string)
    ensures LegacyMapping(token).None? ==> LegacyNormalize(token) == token
    ensures LegacyMapping(LegacyNormalize(token)).None?
            || (LegacySelfMapped(LegacyNormalize(token))
                && LegacyMapping(LegacyNormalize(token)) == Some(LegacyNormalize(token)))
  {
  }

  /** Normalising twice is normalising once. */
  lemma {:induction false} LegacyNormalizeIdempotent(token: string)
    ensures LegacyNormalize(LegacyNormalize(token)) == LegacyNormalize(token)
  {
    LegacyNormalForm(token);
  }

  /** Sides of a modifier are merged, F13 to F18 keep their names, and the transparent binding is drawn
      as `---`. */
  lemma {:induction false} LegacyNormalizeMerges()
    ensures LegacyNormalize("LALT") == LegacyNormalize("RALT") == "ALT"
    ensures LegacyNormalize("LSHFT") == LegacyNormalize("RSHIFT") == "SHIFT"
    ensures LegacyNormalize("LGUI") == LegacyNormalize("RGUI") == "WIN"
    ensures LegacyNormalize("F13") == "F13"
    ensures LegacyNormalize("TRANS") == "---"
  {
  }

  /** The later table of js/keyboard.js extends this one: every name this table knows is drawn the same
      way by both (F13 to F18 left that table but still pass through unchanged). */
  lemma {:induction false} LegacyTableKept(token: string)
    requires LegacyMapping(token).Some?
    ensures KeyLabels.NormalizeKeyLabel(token) == LegacyNormalize(token)
  {
  }

  // ---------------------------------------------------------------------------------------------------
  // parseJsonLayout (main.js:17-35)
  // ---------------------------------------------------------------------------------------------------

  /** One key of this version: no rotation pivot. */
  datatype LegacyKey = LegacyKey(x: real, y: real, w: real, h: real, r: real)

  const LayoutName: string := "layout_US"

  function LegacyJsonKey(k: PhysicalLayout.KeyJson): LegacyKey
  {
    LegacyKey(PhysicalLayout.OrDefault(k.x, 0.0) * 100.0, PhysicalLayout.OrDefault(k.y, 0.0) * 100.0,
              PhysicalLayout.OrDefault(k.w, 1.0) * 100.0, PhysicalLayout.OrDefault(k.h, 1.0) * 100.0,
              PhysicalLayout.OrDefault(k.r, 0.0))
  }

  /** `parseJsonLayout`: a parsed document with truthy `layouts` is read at `layouts.layout_US.layout`
      and mapped key by key; a document without `layouts` gives `[]`; and every way the reads can throw
      (malformed text, no `layout_US`, no `layout` array, a `null` key) ends in the `catch`, which gives
      `[]` too. */
  function LegacyJsonLayout(json: PhysicalLayout.JsonDoc): seq<LegacyKey>
  {
    match json
    case Malformed => []
    case Parsed(None) => []
    case Parsed(Some(entries)) =>
      match PhysicalLayout.Lookup(entries, LayoutName)
      case None => []
      case Some(entry) =>
        match entry.layout
        case None => []
        case Some(elements) =>
          if PhysicalLayout.HasNull(elements) then []
          else seq(|elements|, i requires 0 <= i < |elements| => LegacyJsonKey(elements[i].value))
  }

  /** Every failure gives the empty layout: malformed text, no `layouts`, no `layout_US` among them, a
      `layout_US` without a `layout` array, or a `null` element. */
  lemma {:induction false} LegacyJsonFailures(entries: seq<(string, PhysicalLayout.LayoutEntry)>)
    ensures LegacyJsonLayout(PhysicalLayout.Malformed) == [] && LegacyJsonLayout(PhysicalLayout.Parsed(None)) == []
    ensures (forall i :: 0 <= i < |entries| ==> entries[i].0 != LayoutName)
            ==> LegacyJsonLayout(PhysicalLayout.Parsed(Some(entries))) == []
    ensures PhysicalLayout.Lookup(entries, LayoutName) == Some(PhysicalLayout.LayoutEntry(None))
            ==> LegacyJsonLayout(PhysicalLayout.Parsed(Some(entries))) == []
    ensures forall elements ::
              (PhysicalLayout.Lookup(entries, LayoutName) == Some(PhysicalLayout.LayoutEntry(Some(elements)))
               && PhysicalLayout.HasNull(elements))
              ==> LegacyJsonLayout(PhysicalLayout.Parsed(Some(entries))) == []
  {
  }

  /** On success the layout has one key per element of `layout_US`, in order, with `x, y` defaulting to
      0 and `w, h` to 1 (a 0 counts as missing) and scaled by 100, and `r` kept as written. */
  lemma {:induction false} LegacyJsonKeys(entries: seq<(string, PhysicalLayout.LayoutEntry)>,
                                          elements: seq<Option<PhysicalLayout.KeyJson>>)
    requires PhysicalLayout.Lookup(entries, LayoutName) == Some(PhysicalLayout.LayoutEntry(Some(elements)))
    requires !PhysicalLayout.HasNull(elements)
    ensures var keys := LegacyJsonLayout(PhysicalLayout.Parsed(Some(entries)));
            |keys| == |elements| &&
            forall i :: 0 <= i < |keys| ==>
              var k := elements[i].value;
              && keys[i].x == (if k.x.Some? then k.x.value * 100.0 else 0.0)
              && keys[i].y == (if k.y.Some? then k.y.value * 100.0 else 0.0)
              && keys[i].w == (if k.w.Some? && k.w.value != 0.0 then k.w.value * 100.0 else 100.0)
              && keys[i].h == (if k.h.Some? && k.h.value != 0.0 then k.h.value * 100.0 else 100.0)
              && keys[i].r == (if k.r.Some? then k.r.value else 0.0)
  {
  }

  /** When `layout_US` is the first layout of the document, this version and the JSON path of
      js/keyboard.js read the same keys, and differ only in that the later one adds the pivot. */
  lemma {:induction false} LegacyAgreesWithFirstLayout(entries: seq<(string, PhysicalLayout.LayoutEntry)>)
    requires entries != [] && entries[0].0 == LayoutName
    ensures var old_ := LegacyJsonLayout(PhysicalLayout.Parsed(Some(entries)));
            var new_ := PhysicalLayout.JsonLayout(PhysicalLayout.Parsed(Some(entries)));
            |old_| == |new_| &&
            forall i :: 0 <= i < |old_| ==>
              old_[i] == LegacyKey(new_[i].x, new_[i].y, new_[i].w, new_[i].h, new_[i].r)
  {
  }

  // ---------------------------------------------------------------------------------------------------
  // parseKeymapMacro (main.js:38-71): one flat list of labels.
  // ---------------------------------------------------------------------------------------------------

  /** The variables of the line loop: the `keymap` array and `inBindings`. */
  datatype MacroState = MacroState(keymap: seq<string>, inBindings: bool)

  /** The loop body on a trimmed line: the two block markers move the flag; a line inside a block that
      is neither empty nor a comment adds the label of each of its fragments. */
  function FlatStep(st: MacroState, line: string, classify: string -> string): MacroState
  {
    if Contains(line, "bindings = <") then st.(inBindings := true)
    else if Contains(line, ">;") then st.(inBindings := false)
    else if !st.inBindings || line == [] || StartsWith(line, "//") then st
    else st.(keymap := st.keymap + Keymap.Labels(Keymap.Pieces(Split(line, '&')), classify))
  }

  /** The loop's variables after the first `n` lines. */
  function FlatRun(lines: seq<string>, n: nat, classify: string -> string): MacroState
    requires n <= |lines|
  {
    if n == 0 then MacroState([], false) else FlatStep(FlatRun(lines, n - 1, classify), Trim(lines[n - 1]), classify)
  }

  /** The labels `parseKeymapMacro` returns for a keymap text. */
  function FlatKeymap(text: string, classify: string -> string): seq<string>
  {
    var lines := Split(text, '\n');
    FlatRun(lines, |lines|, classify).keymap
  }

  /** A block marker changes the flag and adds no label; `bindings = <` wins over `>;` on one line. */
  lemma {:induction false} FlatMarkers(st: MacroState, line: string, classify: string -> string)
    requires Contains(line, "bindings = <") || Contains(line, ">;")
    ensures FlatStep(st, line, classify).keymap == st.keymap
    ensures FlatStep(st, line, classify).inBindings == Contains(line, "bindings = <")
  {
  }

  /** Outside a block, and on empty and comment lines, nothing happens. */
  lemma {:induction false} FlatSkips(st: MacroState, line: string, classify: string -> string)
    requires !Contains(line, "bindings = <") && !Contains(line, ">;")
    requires !st.inBindings || line == [] || StartsWith(line, "//")
    ensures FlatStep(st, line, classify) == st
  {
  }

  /** Every label from index `from` on is the label of a non-blank part of `parts`, trimmed, as a
      fragment. */
  ghost predicate LabelsOfParts(keymap: seq<string>, from: nat, parts: seq<string>, classify: string -> string)
  {
    forall i :: from <= i < |keymap| ==> LabelOfPart(keymap[i], parts, classify)
  }

  ghost predicate LabelOfPart(name: string, parts: seq<string>, classify: string -> string)
  {
    exists p :: Keymap.TrimmedPart(p, parts) && p != [] && name == classify("&" + p)
  }

  /** A binding line keeps the labels so far and appends exactly one label per piece of `line.split('&')`
      that is not blank once trimmed: the label of that piece, trimmed, as a fragment. */
  lemma {:induction false} FlatBindingLine(st: MacroState, line: string, classify: string -> string)
    requires !Contains(line, "bindings = <") && !Contains(line, ">;")
    requires st.inBindings && line != [] && !StartsWith(line, "//")
    ensures var st' := FlatStep(st, line, classify);
            var parts := Split(line, '&');
            && st'.inBindings
            && |st'.keymap| == |st.keymap| + Keymap.CountNonBlank(parts)
            && st'.keymap[..|st.keymap|] == st.keymap
            && LabelsOfParts(st'.keymap, |st.keymap|, parts, classify)
  {
    var parts := Split(line, '&');
    var ps := Keymap.Pieces(parts);
    var st' := FlatStep(st, line, classify);
    Keymap.PiecesCount(parts);
    Keymap.PiecesAreTrimmedParts(parts);
    assert st'.keymap == st.keymap + Keymap.Labels(ps, classify);
    forall i | |st.keymap| <= i < |st'.keymap|
      ensures LabelOfPart(st'.keymap[i], parts, classify)
    {
      var k := i - |st.keymap|;
      var p := ps[k];
      assert st'.keymap[i] == classify("&" + p);
      assert Keymap.TrimmedPart(p, parts) && p != [];
    }
    assert LabelsOfParts(st'.keymap, |st.keymap|, parts, classify);
  }

  /** Labels are only ever appended: the list after `m` lines starts with the list after `n <= m`. */
  lemma {:induction false} FlatRunGrows(lines: seq<string>, n: nat, m: nat, classify: string -> string)
    requires n <= m <= |lines|
    ensures var a := FlatRun(lines, n, classify).keymap;
            var b := FlatRun(lines, m, classify).keymap;
            |a| <= |b| && b[..|a|] == a
    decreases m - n
  {
    if n < m {
      FlatRunGrows(lines, n, m - 1, classify);
      var a := FlatRun(lines, n, classify).keymap;
      var c := FlatRun(lines, m - 1, classify).keymap;
      var b := FlatRun(lines, m, classify).keymap;
      assert |c| <= |b| && b[..|c|] == c;
      assert b[..|a|] == c[..|a|];
    }
  }

  /** `parseKeymapMacro`: the line loop over the text. Its six patterns (main.js:40-47) are, pattern for
      pattern and callback for callback, those of js/keyboard.js:177-184, so the labels are those of
      `Bindings.Classify`. */
  method ParseKeymapMacro(text: string) returns (keymap: seq<string>)
    ensures keymap == FlatKeymap(text, Bindings.Classify)
  {
    var lines := Split(text, '\n');
    keymap := [];
    var inBindings := false;
    var i := 0;
    while i < |lines|
      invariant i <= |lines|
      invariant MacroState(keymap, inBindings) == FlatRun(lines, i, Bindings.Classify)
    {
      keymap, inBindings := FlatLine(keymap, inBindings, lines[i]);
      i := i + 1;
    }
  }

  /** The body of the line loop (main.js:50-68). */
  method FlatLine(keymap: seq<string>, inBindings: bool, raw: string)
    returns (keymap': seq<string>, inBindings': bool)
    ensures MacroState(keymap', inBindings') == FlatStep(MacroState(keymap, inBindings), Trim(raw), Bindings.Classify)
  {
    keymap', inBindings' := keymap, inBindings;
    var line := Trim(raw);
    if Contains(line, "bindings = <") {
      inBindings' := true;
      return;
    }
    if Contains(line, ">;") {
      inBindings' := false;
      return;
    }
    if !inBindings || line == [] || StartsWith(line, "//") {
      return;
    }
    keymap' := PushLabels(keymap, line);
  }

  /** `line.split('&').forEach(...)`: each piece that is not blank once trimmed is turned back into a
      fragment and its label pushed. */
  method PushLabels(keymap: seq<string>, line: string) returns (keymap': seq<string>)
    ensures keymap' == keymap + Keymap.Labels(Keymap.Pieces(Split(line, '&')), Bindings.Classify)
  {
    var parts := Split(line, '&');
    keymap' := keymap;
    var j := 0;
    while j < |parts|
      invariant j <= |parts|
      invariant keymap' == keymap + Keymap.Labels(Keymap.Pieces(parts[..j]), Bindings.Classify)
    {
      var code := Trim(parts[j]);
      Keymap.PiecesSnoc(parts[..j], parts[j]);
      TakeSnoc(parts, j);
      if code != [] {
        Keymap.LabelsAppend(Keymap.Pieces(parts[..j]), [code], Bindings.Classify);
        Keymap.LabelsOne(code, Bindings.Classify);
        AppendAssoc(keymap, Keymap.Labels(Keymap.Pieces(parts[..j]), Bindings.Classify), [Bindings.Classify("&" + code)]);
        keymap' := keymap' + [Bindings.Classify("&" + code)];
      } else {
        assert Keymap.Pieces(parts[..j + 1]) == Keymap.Pieces(parts[..j]);
      }
      j := j + 1;
    }
    assert parts[..j] == parts;
  }
}
