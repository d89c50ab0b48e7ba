/** The keymap half of js/keyboard.js: `parseKeymapMacro`, a line-by-line state machine over a ZMK
    devicetree keymap that collects one label list per layer, and its QMK branch `parseQmkKeymap` with the
    recursive keycode normaliser `normalizeQmkKeycode`. */
module Keymap {
  import opened Text
  import opened Bindings

  /** One entry of the `layers` object; `caption` is its `label` property. */
  datatype Layer = Layer(name: string, caption: string, keys: seq<string>)

  /** The `layers` object: its entries by name, and the names in the order they were first assigned,
      which is the order a JavaScript object enumerates them in. */
  datatype Layers = Layers(names: seq<string>, byName: map<string, Layer>)

  const NoLayers := Layers([], map[])

  /** Every name is listed once, the listed names are the entries, and each entry carries its own name. */
  ghost predicate LayersValid(ls: Layers)
  {
    && NoDuplicates(ls.names)
    && (forall n :: n in ls.byName <==> n in ls.names)
    && (forall n :: n in ls.byName ==> ls.byName[n].name == n)
  }

  predicate NoDuplicates(s: seq<string>)
  {
    forall i, j :: 0 <= i < j < |s| ==> s[i] != s[j]
  }

  /** `layers[layer.name] = layer`: a new name is appended to the enumeration order, an existing one keeps
      its place. */
  function Put(ls: Layers, layer: Layer): (r: Layers)
    ensures r.byName == ls.byName[layer.name := layer]
    ensures layer.name in ls.byName ==> r.names == ls.names
    ensures layer.name !in ls.byName ==> r.names == ls.names + [layer.name]
  {
    Layers(if layer.name in ls.byName then ls.names else ls.names + [layer.name], ls.byName[layer.name := layer])
  }

  lemma {:induction false} PutValid(ls: Layers, layer: Layer)
    requires LayersValid(ls)
    ensures LayersValid(Put(ls, layer))
  {
  }

  // ---------------------------------------------------------------------------------------------------
  // The two line patterns of the devicetree path.
  // ---------------------------------------------------------------------------------------------------

  const LayerSuffix: string := "_layer"

  /** `(\w+)_layer\s*{` tried at index `i`. `\w+` first takes the whole word and then gives characters
      back until `_layer` follows; since `_layer` consists of word characters and must be followed by
      `\s*{`, the only split that can succeed ends the word exactly at `_layer`. The group is the word
      without that suffix. */
  function LayerHeaderAt(s: string, i: nat): (name: Option<string>)
    requires i <= |s|
    ensures name.Some? ==> name.value != [] && forall k :: 0 <= k < |name.value| ==> IsWordChar(name.value[k])
  {
    var k := Span(s, i, WordClass);
    if k - i < |LayerSuffix| + 1 || s[k - |LayerSuffix|..k] != LayerSuffix then None
    else
      var j := Span(s, k, SpaceClass);
      if j < |s| && s[j] == '{' then Some(s[i..k - |LayerSuffix|]) else None
  }

  /** `line.match(/(\w+)_layer\s*{/)`: the leftmost index where the pattern matches, from `i` on. */
  function LayerHeaderFrom(s: string, i: nat): (name: Option<string>)
    requires i <= |s|
    ensures name.Some? ==> name.value != [] && forall k :: 0 <= k < |name.value| ==> IsWordChar(name.value[k])
    decreases |s| - i
  {
    match LayerHeaderAt(s, i)
    case Some(n) => Some(n)
    case None => if i == |s| then None else LayerHeaderFrom(s, i + 1)
  }

  function LayerHeader(s: string): Option<string>
  {
    LayerHeaderFrom(s, 0)
  }

  /** `label\s*=\s*"([^"]+)"` tried at index `i`: the group is the text up to the next quote, which must
      exist and must not be the very next character. */
  function LabelAt(s: string, i: nat): (v: Option<string>)
    requires i <= |s|
    ensures v.Some? ==> v.value != [] && '"' !in v.value
  {
    if !StartsWith(s[i..], "label") then None
    else
      var j := Span(s, i + 5, SpaceClass);
      if j == |s| || s[j] != '=' then None
      else
        var q := Span(s, j + 1, SpaceClass);
        if q == |s| || s[q] != '"' then None
        else
          var e := Span(s, q + 1, Except('"'));
          if e == q + 1 || e == |s| then None
          else
            Some(s[q + 1..e])
  }

  function LabelFrom(s: string, i: nat): Option<string>
    requires i <= |s|
    decreases |s| - i
  {
    match LabelAt(s, i)
    case Some(v) => Some(v)
    case None => if i == |s| then None else LabelFrom(s, i + 1)
  }

  function LabelValue(s: string): Option<string>
  {
    LabelFrom(s, 0)
  }

  // ---------------------------------------------------------------------------------------------------
  // The devicetree state machine.
  // ---------------------------------------------------------------------------------------------------

  /** The variables of the line loop: the `layers` object, `currentLayer` and `inBindings`. */
  datatype ScanState = ScanState(layers: Layers, current: Option<string>, inBindings: bool)

  const Start := ScanState(NoLayers, None, false)

  /** Whenever there is a current layer, it is one of the layers. */
  ghost predicate ScanValid(st: ScanState)
  {
    LayersValid(st.layers) && (st.current.Some? ==> st.current.value in st.layers.byName)
  }

  /** The `&`-pieces of a binding line that are not blank once trimmed, trimmed, in order. */
  function Pieces(parts: seq<string>): (ps: seq<string>)
    ensures |ps| <= |parts|
    ensures forall i :: 0 <= i < |ps| ==> ps[i] != []
  {
    if parts == [] then []
    else
      var last := Trim(parts[|parts| - 1]);
      Pieces(parts[..|parts| - 1]) + (if last == [] then [] else [last])
  }

  /** The labels of the pieces of a binding line: the label `classify` gives `&` followed by the piece,
      for each piece in turn. The parsers pass `Bindings.Classify`. */
  function Labels(ps: seq<string>, classify: string -> string): (labels: seq<string>)
    ensures |labels| == |ps|
    ensures forall i :: 0 <= i < |ps| ==> labels[i] == classify("&" + ps[i])
  {
    seq(|ps|, i requires 0 <= i < |ps| => classify("&" + ps[i]))
  }

  lemma {:induction false} PiecesSnoc(parts: seq<string>, p: string)
    ensures Pieces(parts + [p]) == Pieces(parts) + (if Trim(p) == [] then [] else [Trim(p)])
  {
    assert (parts + [p])[..|parts|] == parts;
  }

  lemma {:induction false} LabelsOne(x: string, classify: string -> string)
    ensures Labels([x], classify) == [classify("&" + x)]
  {
  }

  lemma {:induction false} LabelsAppend(a: seq<string>, b: seq<string>, classify: string -> string)
    ensures Labels(a + b, classify) == Labels(a, classify) + Labels(b, classify)
  {
  }

  /** The number of pieces that are not blank once trimmed. */
  function CountNonBlank(parts: seq<string>): nat
  {
    if parts == [] then 0 else CountNonBlank(parts[1..]) + (if Trim(parts[0]) == [] then 0 else 1)
  }

  /** `layers[name].label = v`, on a name that may be absent (then nothing happens). */
  function SetLabel(ls: Layers, name: string, v: string): Layers
  {
    if name in ls.byName then Layers(ls.names, ls.byName[name := ls.byName[name].(caption := v)]) else ls
  }

  /** `layers[name].keys.push(...added)`, on a name that may be absent (then nothing happens). */
  function AddKeys(ls: Layers, name: string, added: seq<string>): Layers
  {
    if name in ls.byName then Layers(ls.names, ls.byName[name := ls.byName[name].(keys := ls.byName[name].keys + added)])
    else ls
  }

  /** What the tests of the loop body find in one trimmed line, independently of the loop's variables:
      the layer header it names, the label it assigns, whether it opens or closes a bindings block,
      whether it is blank or a comment, and the pieces of its binding fragments. */
  datatype LineKind = LineKind(header: Option<string>, caption: Option<string>, opens: bool, closes: bool,
                               skip: bool, pieces: seq<string>)

  function Analyse(line: string): LineKind
  {
    LineKind(LayerHeader(line), LabelValue(line), Contains(line, "bindings = <"), Contains(line, ">;"),
             line == [] || StartsWith(line, "//"), Pieces(Split(line, '&')))
  }

  /** The loop body on an analysed line, its tests in the order of js/keyboard.js:190-215: a header starts
      a layer; a label names the current layer; the two block markers move the flag; a line inside a
      block with a current layer, neither blank nor a comment, adds its labels. */
  function Perform(st: ScanState, k: LineKind, classify: string -> string): ScanState
  {
    if k.header.Some? then ScanState(Put(st.layers, Layer(k.header.value, "", [])), k.header, st.inBindings)
    else if k.caption.Some? && st.current.Some? then st.(layers := SetLabel(st.layers, st.current.value, k.caption.value))
    else if k.opens then st.(inBindings := true)
    else if k.closes then st.(inBindings := false)
    else if !st.inBindings || k.skip || st.current.None? then st
    else st.(layers := AddKeys(st.layers, st.current.value, Labels(k.pieces, classify)))
  }

  /** The analysed lines of a keymap text. */
  function Kinds(lines: seq<string>): (ks: seq<LineKind>)
    ensures |ks| == |lines|
  {
    seq(|lines|, i requires 0 <= i < |lines| => Analyse(Trim(lines[i])))
  }

  /** The loop's variables after the first `n` lines. */
  function Run(ks: seq<LineKind>, n: nat, classify: string -> string): ScanState
    requires n <= |ks|
  {
    if n == 0 then Start else Perform(Run(ks, n - 1, classify), ks[n - 1], classify)
  }

  /** The layers the devicetree path returns for a keymap text. */
  function DtKeymap(text: string, classify: string -> string): Layers
  {
    var ks := Kinds(Split(text, '\n'));
    Run(ks, |ks|, classify).layers
  }

  /** A `label = "..."` line that names no layer, read while a layer is current, sets the current layer's
      label to the quoted value. Its keys, the other layers, the layer order, the current layer and the
      bindings flag stay as they were. */
  lemma {:induction false} PerformLabel(st: ScanState, line: string, v: string, classify: string -> string)
    requires ScanValid(st) && st.current.Some?
    requires LayerHeader(line).None? && LabelValue(line) == Some(v)
    ensures var c := st.current.value;
            var st' := Perform(st, Analyse(line), classify);
            && st'.current == st.current && st'.inBindings == st.inBindings
            && st'.layers.names == st.layers.names
            && st'.layers.byName.Keys == st.layers.byName.Keys
            && st'.layers.byName[c].caption == v
            && st'.layers.byName[c].name == st.layers.byName[c].name
            && st'.layers.byName[c].keys == st.layers.byName[c].keys
            && (forall n :: n in st.layers.byName && n != c ==> st'.layers.byName[n] == st.layers.byName[n])
  {
  }

  /** A header line creates the layer, or replaces an existing one of that name by an empty one with an
      empty label, and makes it current, whatever the state. */
  lemma {:induction false} PerformHeader(st: ScanState, line: string, n: string, classify: string -> string)
    requires LayerHeader(line) == Some(n)
    ensures var st' := Perform(st, Analyse(line), classify);
            && st'.current == Some(n) && st'.inBindings == st.inBindings
            && st'.layers.byName == st.layers.byName[n := Layer(n, "", [])]
            && st'.layers.names == if n in st.layers.byName then st.layers.names else st.layers.names + [n]
  {
  }

  /** Only a header line changes the current layer or the enumeration order; every other line touches at
      most the current layer, and of it only the label or the end of its keys. */
  lemma {:induction false} PerformKeepsOthers(st: ScanState, k: LineKind, classify: string -> string)
    requires ScanValid(st) && k.header.None?
    ensures var st' := Perform(st, k, classify);
            && st'.current == st.current
            && st'.layers.names == st.layers.names
            && st'.layers.byName.Keys == st.layers.byName.Keys
            && (forall n :: n in st.layers.byName && Some(n) != st.current ==> st'.layers.byName[n] == st.layers.byName[n])
            && (st.current.Some? ==>
                  var c := st.current.value;
                  var (old_, new_) := (st.layers.byName[c], st'.layers.byName[c]);
                  new_.name == old_.name && |old_.keys| <= |new_.keys| && new_.keys[..|old_.keys|] == old_.keys)
  {
    if st.current.Some? {
      var c := st.current.value;
      var ks := st.layers.byName[c].keys;
      assert (ks + Labels(k.pieces, classify))[..|ks|] == ks;
    }
  }

  /** A line read inside a bindings block, with a current layer, that is neither a header, a label, a
      block marker, blank nor a comment adds the labels of its fragments to the current layer. */
  lemma {:induction false} PerformBinds(st: ScanState, line: string, classify: string -> string)
    requires ScanValid(st) && st.current.Some? && st.inBindings
    requires LayerHeader(line).None? && LabelValue(line).None?
    requires !Contains(line, "bindings = <") && !Contains(line, ">;") && line != [] && !StartsWith(line, "//")
    ensures var c := st.current.value;
            var l := st.layers.byName[c];
            Perform(st, Analyse(line), classify) == st.(layers := Layers(st.layers.names,
                                                 st.layers.byName[c := l.(keys := l.keys + Labels(Pieces(Split(line, '&')), classify))]))
  {
    assert Analyse(line) == LineKind(None, None, false, false, false, Pieces(Split(line, '&')));
  }

  /** Block markers move only the flag, unless the line is a header or a label with a current layer. */
  lemma {:induction false} PerformToggles(st: ScanState, line: string, classify: string -> string)
    requires LayerHeader(line).None? && (LabelValue(line).None? || st.current.None?)
    ensures Contains(line, "bindings = <") ==> Perform(st, Analyse(line), classify) == st.(inBindings := true)
    ensures !Contains(line, "bindings = <") && Contains(line, ">;") ==> Perform(st, Analyse(line), classify) == st.(inBindings := false)
  {
  }

  /** Outside a bindings block, a line that is not a header, a label or a block marker changes nothing. */
  lemma {:induction false} PerformOutside(st: ScanState, line: string, classify: string -> string)
    requires !st.inBindings && LayerHeader(line).None? && LabelValue(line).None?
    requires !Contains(line, "bindings = <") && !Contains(line, ">;")
    ensures Perform(st, Analyse(line), classify) == st
  {
  }

  lemma {:induction false} SetLabelValid(ls: Layers, n: string, v: string)
    requires LayersValid(ls)
    ensures LayersValid(SetLabel(ls, n, v))
  {
  }

  lemma {:induction false} AddKeysValid(ls: Layers, n: string, added: seq<string>)
    requires LayersValid(ls)
    ensures LayersValid(AddKeys(ls, n, added))
  {
  }

  /** Every line keeps the current layer among the layers and the layer table well formed. */
  lemma {:induction false} PerformValid(st: ScanState, k: LineKind, classify: string -> string)
    requires ScanValid(st)
    ensures ScanValid(Perform(st, k, classify))
  {
    if k.header.Some? {
      PutValid(st.layers, Layer(k.header.value, "", []));
    } else if st.current.Some? {
      if k.caption.Some? {
        SetLabelValid(st.layers, st.current.value, k.caption.value);
      }
      AddKeysValid(st.layers, st.current.value, Labels(k.pieces, classify));
    }
  }

  lemma {:induction false} RunValid(ks: seq<LineKind>, n: nat, classify: string -> string)
    requires n <= |ks|
    ensures ScanValid(Run(ks, n, classify))
  {
    if n > 0 {
      RunValid(ks, n - 1, classify);
      PerformValid(Run(ks, n - 1, classify), ks[n - 1], classify);
    }
  }

  /** Whatever the text, the layers returned list every name once, in step with the entries, each entry
      carrying its own name. */
  lemma {:induction false} DtKeymapValid(text: string, classify: string -> string)
    ensures LayersValid(DtKeymap(text, classify))
  {
    var ks := Kinds(Split(text, '\n'));
    RunValid(ks, |ks|, classify);
  }

  /** A binding line contributes one label per piece that is not blank once trimmed. */
  lemma {:induction false} PiecesCount(parts: seq<string>)
    ensures |Pieces(parts)| == CountNonBlank(parts)
    decreases |parts|
  {
    if parts != [] {
      var init, p := parts[..|parts| - 1], parts[|parts| - 1];
      assert init + [p] == parts;
      PiecesCount(init);
      CountNonBlankSnoc(init, p);
      assert |Pieces(parts)| == |Pieces(init)| + (if Trim(p) == [] then 0 else 1);
    }
  }

  lemma {:induction false} CountNonBlankSnoc(parts: seq<string>, p: string)
    ensures CountNonBlank(parts + [p]) == CountNonBlank(parts) + (if Trim(p) == [] then 0 else 1)
    decreases |parts|
  {
    if parts != [] {
      assert (parts + [p])[1..] == parts[1..] + [p];
      CountNonBlankSnoc(parts[1..], p);
    }
  }

  /** Each piece of a line split on `&` makes a binding fragment again once `&` is put back in front, and
      it is the trimmed text of one of the parts. */
  lemma {:induction false} PiecesAreFragments(parts: seq<string>)
    requires forall i :: 0 <= i < |parts| ==> '&' !in parts[i]
    ensures forall i :: 0 <= i < |Pieces(parts)| ==> IsFragment("&" + Pieces(parts)[i]) && TrimmedPart(Pieces(parts)[i], parts)
  {
    PiecesAreTrimmedParts(parts);
    forall i | 0 <= i < |Pieces(parts)|
      ensures IsFragment("&" + Pieces(parts)[i])
    {
      var j :| 0 <= j < |parts| && Pieces(parts)[i] == Trim(parts[j]);
      TrimmedFragment(parts[j]);
    }
  }

  /** `p` is one of the parts, trimmed. */
  ghost predicate TrimmedPart(p: string, parts: seq<string>)
  {
    exists j :: 0 <= j < |parts| && p == Trim(parts[j])
  }

  lemma {:induction false} PiecesAreTrimmedParts(parts: seq<string>)
    ensures forall i :: 0 <= i < |Pieces(parts)| ==> TrimmedPart(Pieces(parts)[i], parts)
    decreases |parts|
  {
    if parts != [] {
      var init, n := parts[..|parts| - 1], |parts| - 1;
      PiecesAreTrimmedParts(init);
      assert Pieces(parts) == Pieces(init) + (if Trim(parts[n]) == [] then [] else [Trim(parts[n])]);
      forall i | 0 <= i < |Pieces(parts)|
        ensures TrimmedPart(Pieces(parts)[i], parts)
      {
        if i < |Pieces(init)| {
          var j :| 0 <= j < |init| && Pieces(init)[i] == Trim(init[j]);
          assert init[j] == parts[j];
        } else {
          assert Pieces(parts)[i] == Trim(parts[n]);
        }
      }
    }
  }

  /** A part without `&`, trimmed and prefixed with `&`, is a fragment. */
  lemma {:induction false} TrimmedFragment(part: string)
    requires '&' !in part
    ensures IsFragment("&" + Trim(part))
  {
    var t := Trim(part);
    TrimIsInfix(part);
    assert forall k :: 1 <= k < |"&" + t| ==> ("&" + t)[k] == t[k - 1];
  }

  /** Trimming keeps a run of the original's characters. */
  lemma {:induction false} TrimIsInfix(s: string)
    ensures forall c :: c in Trim(s) ==> c in s
  {
    var t := TrimStart(s);
    TrimStartSuffix(s);
    TrimEndPrefix(t);
    assert forall c :: c in TrimEnd(t) ==> c in t;
    assert forall c :: c in t ==> c in s;
  }

  /** `parseKeymapMacro` on a devicetree keymap (js/keyboard.js:173-230): the line loop with its three
      variables. */
  method ParseDtKeymap(text: string, classify: string -> string) returns (layers: Layers)
    ensures layers == DtKeymap(text, classify)
  {
    var lines := Split(text, '\n');
    KindsAnalysed(lines);
    layers := ScanLines(lines, Kinds(lines), classify);
  }

  /** Line `j`, as the one term that opens up `AnalysedLines`. */
  function LineAt(lines: seq<string>, j: nat): string
    requires j < |lines|
  {
    lines[j]
  }

  /** `ks` holds the analysis of each trimmed line. The quantifier is released only for a line that is
      named, so that reasoning about the loop does not unfold the analysis of every line. */
  ghost predicate AnalysedLines(lines: seq<string>, ks: seq<LineKind>)
  {
    |ks| == |lines| && forall j {:trigger LineAt(lines, j)} :: 0 <= j < |lines| ==> ks[j] == Analyse(Trim(LineAt(lines, j)))
  }

  lemma {:induction false} KindsAnalysed(lines: seq<string>)
    ensures AnalysedLines(lines, Kinds(lines))
  {
    forall j | 0 <= j < |lines|
      ensures Kinds(lines)[j] == Analyse(Trim(LineAt(lines, j)))
    {
    }
  }

  /** The `for (const rawLine of lines)` loop; `ks` are the analysed lines, for the specification only. */
  method ScanLines(lines: seq<string>, ghost ks: seq<LineKind>, classify: string -> string) returns (layers: Layers)
    requires AnalysedLines(lines, ks)
    ensures layers == Run(ks, |ks|, classify).layers
  {
    layers := NoLayers;
    var current: Option<string> := None;
    var inBindings := false;
    var i := 0;
    while i < |lines|
      invariant i <= |lines|
      invariant ScanState(layers, current, inBindings) == Run(ks, i, classify)
    {
      layers, current, inBindings := NextLine(layers, current, inBindings, lines, ks, i, classify);
      i := i + 1;
    }
  }

  /** Reading line `i` takes the loop's variables from the state after `i` lines to the state after
      `i + 1`. */
  method NextLine(layers: Layers, current: Option<string>, inBindings: bool, lines: seq<string>,
                  ghost ks: seq<LineKind>, i: nat, classify: string -> string)
    returns (layers': Layers, current': Option<string>, inBindings': bool)
    requires AnalysedLines(lines, ks) && i < |lines|
    requires ScanState(layers, current, inBindings) == Run(ks, i, classify)
    ensures ScanState(layers', current', inBindings') == Run(ks, i + 1, classify)
  {
    assert ks[i] == Analyse(Trim(LineAt(lines, i)));
    layers', current', inBindings' := ReadLine(layers, current, inBindings, lines[i], classify);
  }

  /** The body of the line loop (js/keyboard.js:187-228). */
  method ReadLine(layers: Layers, current: Option<string>, inBindings: bool, raw: string, classify: string -> string)
    returns (layers': Layers, current': Option<string>, inBindings': bool)
    ensures ScanState(layers', current', inBindings') == Perform(ScanState(layers, current, inBindings), Analyse(Trim(raw)), classify)
  {
    layers', current', inBindings' := layers, current, inBindings;
    var line := Trim(raw);
    var header := LayerHeader(line);
    if header.Some? {
      current' := header;
      layers' := Put(layers, Layer(header.value, "", []));
      return;
    }
    var caption := LabelValue(line);
    if caption.Some? && current.Some? {
      layers' := SetLabel(layers, current.value, caption.value);
      return;
    }
    if Contains(line, "bindings = <") {
      inBindings' := true;
      return;
    }
    if Contains(line, ">;") {
      inBindings' := false;
      return;
    }
    if !inBindings || line == [] || StartsWith(line, "//") || current.None? {
      return;
    }
    layers' := PushFragments(layers, current.value, line, classify);
  }

  /** `line.split('&').forEach(...)`: each piece that is not blank once trimmed is turned back into a
      fragment and its label pushed onto the keys of layer `name`. */
  method PushFragments(layers: Layers, name: string, line: string, classify: string -> string) returns (layers': Layers)
    ensures layers' == AddKeys(layers, name, Labels(Pieces(Split(line, '&')), classify))
  {
    var parts := Split(line, '&');
    layers' := layers;
    AddKeysNothing(layers, name);
    var j := 0;
    while j < |parts|
      invariant j <= |parts|
      invariant layers' == AddKeys(layers, name, Labels(Pieces(parts[..j]), classify))
    {
      var code := Trim(parts[j]);
      PiecesSnoc(parts[..j], parts[j]);
      TakeSnoc(parts, j);
      if code != [] {
        var key := classify("&" + code);
        LabelsAppend(Pieces(parts[..j]), [code], classify);
        LabelsOne(code, classify);
        AddKeysTwice(layers, name, Labels(Pieces(parts[..j]), classify), [key]);
        layers' := AddKeys(layers', name, [key]);
      } else {
        assert Pieces(parts[..j + 1]) == Pieces(parts[..j]);
      }
      j := j + 1;
    }
    assert parts[..j] == parts;
  }

  lemma {:induction false} AddKeysNothing(ls: Layers, n: string)
    ensures AddKeys(ls, n, []) == ls
  {
    if n in ls.byName {
      var l := ls.byName[n];
      assert l.(keys := l.keys + []) == l;
    }
  }

  lemma {:induction false} AddKeysTwice(ls: Layers, n: string, a: seq<string>, b: seq<string>)
    ensures AddKeys(AddKeys(ls, n, a), n, b) == AddKeys(ls, n, a + b)
  {
    if n in ls.byName {
      var l := ls.byName[n];
      assert l.keys + a + b == l.keys + (a + b);
    }
  }

  // ---------------------------------------------------------------------------------------------------
  // The QMK branch: `parseQmkKeymap` and `normalizeQmkKeycode` (js/keyboard.js:233-292).
  // ---------------------------------------------------------------------------------------------------

  /** The marker that sends a keymap text to the QMK branch. */
  const QmkMarker: string := "PROGMEM keymaps[]["

  /** The modifier wrappers `normalizeQmkKeycode` unwraps, in the order of its alternation. */
  const QmkMods: seq<string> := ["LCTL", "RCTL", "LSFT", "RSFT", "LALT", "RALT", "LGUI", "RGUI"]

  /** The `qmkToZmk` table. */
  function QmkRename(code: string): (v: Option<string>)
    ensures v.Some? ==> v.value != []
  {
    match code
    case "MINS" => Some("MINUS") case "EQL" => Some("EQUAL") case "LBRC" => Some("[") case "RBRC" => Some("]")
    case "QUOT" => Some("SQT") case "SLSH" => Some("FSLH") case "INT1" => Some("CAPS") case "INT3" => Some("INT3")
    case "MS_BTN1" => Some("BTN1") case "MS_BTN2" => Some("BTN2") case "MS_BTN3" => Some("BTN3")
    case "WWW_BACK" => Some("WWW_PREV") case "WWW_FORWARD" => Some("WWW_NEXT")
    case _ => None
  }

  /** The end of the lazy `(.*?)\)` that starts at `j`: the first `)` from `j` on, provided no line
      terminator (which `.` does not match) comes before it. */
  function CloseParen(s: string, j: nat): (e: Option<nat>)
    requires j <= |s|
    ensures e.Some? ==> j <= e.value < |s| && s[e.value] == ')'
    decreases |s| - j
  {
    if j == |s| || IsLineTerminator(s[j]) then None
    else if s[j] == ')' then Some(j)
    else CloseParen(s, j + 1)
  }

  /** An application `MOD(inner)` found in a keycode: the wrapper's name and where `inner` lies. */
  datatype ModMatch = ModMatch(mod: string, start: nat, end: nat)

  /** `(LCTL|RCTL|...)\((.*?)\)` tried at index `i`; the eight names are distinct and of one length, so
      at most one alternative can apply. */
  function ModAt(s: string, i: nat): (r: Option<ModMatch>)
    requires i <= |s|
    ensures r.Some? ==> r.value.mod in QmkMods && i + 5 == r.value.start <= r.value.end < |s|
  {
    if i + 5 > |s| || s[i + 4] != '(' || s[i..i + 4] !in QmkMods then None
    else
      match CloseParen(s, i + 5)
      case Some(e) => Some(ModMatch(s[i..i + 4], i + 5, e))
      case None => None
  }

  /** `code.match(modPattern)`: the leftmost application, from `i` on. */
  function ModFrom(s: string, i: nat): (r: Option<ModMatch>)
    requires i <= |s|
    ensures r.Some? ==> r.value.mod in QmkMods && i + 5 <= r.value.start <= r.value.end < |s|
    decreases |s| - i
  {
    match ModAt(s, i)
    case Some(m) => Some(m)
    case None => if i == |s| then None else ModFrom(s, i + 1)
  }

  /** `code.replace(/^KC_/, '')` */
  function StripKc(code: string): (c: string)
    ensures |c| <= |code|
  {
    if StartsWith(code, "KC_") then code[3..] else code
  }

  /** `normalizeQmkKeycode`: the `KC_` prefix goes, three codes have fixed names, a modifier application
      becomes the modifier without its side, `+`, and its normalised argument, and what is left goes through
      the rename table. The recursion is on the argument, strictly shorter than the code. */
  function NormalizeQmkKeycode(code: string): (r: string)
    decreases |code|
  {
    var c := StripKc(code);
    if c == "_______" then "TRANS"
    else if c == "0x0068" then "F13"
    else if c == "0x0069" then "F14"
    else
      match ModFrom(c, 0)
      case Some(m) => m.mod[1..] + "+" + NormalizeQmkKeycode(c[m.start..m.end])
      case None =>
        match QmkRename(c)
        case Some(v) => v
        case None => c
  }

  /** The prefix `KC_` is removed once. */
  lemma {:induction false} QmkStripsPrefix(x: string)
    requires !StartsWith(x, "KC_")
    ensures NormalizeQmkKeycode("KC_" + x) == NormalizeQmkKeycode(x)
  {
    assert StartsWith("KC_" + x, "KC_");
    assert ("KC_" + x)[3..] == x;
  }

  lemma {:induction false} QmkSpecialCodes()
    ensures NormalizeQmkKeycode("_______") == "TRANS" && NormalizeQmkKeycode("KC_TRNS") == "TRNS"
    ensures NormalizeQmkKeycode("0x0068") == "F13" && NormalizeQmkKeycode("0x0069") == "F14"
  {
    NotKc("_______");
    NotKc("0x0068");
    NotKc("0x0069");
    assert StartsWith("KC_TRNS", "KC_") && "KC_TRNS"[3..] == "TRNS";
    NoModFrom("TRNS", 0);
  }

  lemma {:induction false} NotKc(s: string)
    requires s != [] && s[0] != 'K'
    ensures !StartsWith(s, "KC_")
  {
    if |s| >= 3 {
      assert s[..3][0] != "KC_"[0];
    }
  }

  /** A code with no `(` from `i` on holds no modifier application there. */
  lemma {:induction false} NoModFrom(s: string, i: nat)
    requires i <= |s| && forall k :: i <= k < |s| ==> s[k] != '('
    ensures ModFrom(s, i).None?
    decreases |s| - i
  {
    if i < |s| {
      NoModFrom(s, i + 1);
    }
  }

  /** A code that is not special, not prefixed and holds no `(` is looked up in the rename table, and
      passes through when it is not one of its names. */
  lemma {:induction false} QmkRenamed(code: string)
    requires !StartsWith(code, "KC_") && code != "_______" && code != "0x0068" && code != "0x0069"
    requires forall k :: 0 <= k < |code| ==> code[k] != '('
    ensures NormalizeQmkKeycode(code) == if QmkRename(code).Some? then QmkRename(code).value else code
  {
    NoModFrom(code, 0);
  }

  /** The scan of `(.*?)\)` stops at the first `)`. */
  lemma {:induction false} CloseParenAt(s: string, j: nat, e: nat)
    requires j <= e < |s| && s[e] == ')'
    requires forall k :: j <= k < e ==> s[k] != ')' && !IsLineTerminator(s[k])
    ensures CloseParen(s, j) == Some(e)
    decreases e - j
  {
    if j < e {
      CloseParenAt(s, j + 1, e);
    }
  }

  /** `MOD(x)`, for an argument without `)` or line terminators, becomes the modifier without its side,
      `+`, and `x` normalised. */
  lemma {:induction false} QmkModifier(m: string, x: string)
    requires m in QmkMods
    requires forall k :: 0 <= k < |x| ==> x[k] != ')' && !IsLineTerminator(x[k])
    ensures NormalizeQmkKeycode(m + "(" + x + ")") == m[1..] + "+" + NormalizeQmkKeycode(x)
  {
    var code := m + "(" + x + ")";
    assert |m| == 4 && (m[0] == 'L' || m[0] == 'R');
    assert code[0] == m[0] && code[4] == '(' && code[..4] == m;
    NotKc(code);
    assert code != "_______" && code != "0x0068" && code != "0x0069" by {
      assert code[0] != '_' && code[0] != '0';
    }
    CloseParenAt(code, 5, |code| - 1);
    assert ModAt(code, 0) == Some(ModMatch(m, 5, |code| - 1));
    assert code[5..|code| - 1] == x;
  }

  /** One match of `/\[_(\w+)\]\s*=\s*LAYOUT\(([\s\S]*?)\)/g`: the layer name, the argument text up to the
      closing `)`, and the index after that `)`, where the next search starts. */
  datatype QmkLayerMatch = QmkLayerMatch(name: string, args: string, end: nat)

  /** Which `)` ends a layer's arguments: the first one, as the lazy `([\s\S]*?)\)` has it, or the one
      that closes `LAYOUT(`, which a keymap holding modifier applications such as `LCTL(KC_C)` needs. */
  datatype ArgsEnd = AtFirstClose | AtMatchingClose

  /** The `)` that closes the parenthesis opened just before `j`, when `depth` more are open inside it. */
  function MatchingParen(s: string, j: nat, depth: nat): (c: Option<nat>)
    requires j <= |s|
    ensures c.Some? ==> j <= c.value < |s| && s[c.value] == ')'
    decreases |s| - j
  {
    if j == |s| then None
    else if s[j] == ')' then (if depth == 0 then Some(j) else MatchingParen(s, j + 1, depth - 1))
    else if s[j] == '(' then MatchingParen(s, j + 1, depth + 1)
    else MatchingParen(s, j + 1, depth)
  }

  /** The `)` ending the arguments that start at `j`. */
  function ArgsClose(s: string, j: nat, close: ArgsEnd): (c: Option<nat>)
    requires j <= |s|
    ensures c.Some? ==> j <= c.value < |s| && s[c.value] == ')'
  {
    match close
    case AtFirstClose =>
      var c := Span(s, j, Except(')'));
      if c == |s| then None else Some(c)
    case AtMatchingClose => MatchingParen(s, j, 0)
  }

  /** `\[_(\w+)\]\s*=\s*LAYOUT\(` tried at index `i`: the layer name and the index where the arguments
      start. `\w+` must be followed by `]` and `\s*` by `=` or `L`, none of which the runs can hold, so the
      greedy runs never give characters back. */
  function QmkLayerHead(s: string, i: nat): (h: Option<(string, nat)>)
    requires i <= |s|
    ensures h.Some? ==> h.value.0 != [] && i < h.value.1 <= |s|
  {
    if i + 2 > |s| || s[i] != '[' || s[i + 1] != '_' then None
    else
      var w := Span(s, i + 2, WordClass);
      if w == i + 2 || w == |s| || s[w] != ']' then None
      else
        var a := Span(s, w + 1, SpaceClass);
        if a == |s| || s[a] != '=' then None
        else
          var b := Span(s, a + 1, SpaceClass);
          if !OccursAt(s, b, "LAYOUT(") then None else Some((s[i + 2..w], b + 7))
  }

  /** The layer pattern tried at index `i`, its arguments ended as `close` says. */
  function QmkLayerAt(s: string, i: nat, close: ArgsEnd): (r: Option<QmkLayerMatch>)
    requires i <= |s|
    ensures r.Some? ==> i < r.value.end <= |s| && r.value.name != []
  {
    match QmkLayerHead(s, i)
    case None => None
    case Some((name, a)) =>
      match ArgsClose(s, a, close)
      case None => None
      case Some(c) => Some(QmkLayerMatch(name, s[a..c], c + 1))
  }

  /** `layerPattern.exec(text)` with `lastIndex` at `i`: the leftmost match from `i` on. */
  function QmkLayerFrom(s: string, i: nat, close: ArgsEnd): (r: Option<QmkLayerMatch>)
    requires i <= |s|
    ensures r.Some? ==> i < r.value.end <= |s| && r.value.name != []
    decreases |s| - i
  {
    match QmkLayerAt(s, i, close)
    case Some(m) => Some(m)
    case None => if i == |s| then None else QmkLayerFrom(s, i + 1, close)
  }

  /** `.filter(k => k.length > 0)` */
  function NonEmpty(ts: seq<string>): (r: seq<string>)
    ensures |r| <= |ts|
    ensures forall k :: 0 <= k < |r| ==> r[k] != []
  {
    if ts == [] then [] else (if ts[0] == [] then [] else [ts[0]]) + NonEmpty(ts[1..])
  }

  /** The keys of one layer: the argument text without whitespace, split on `,`, empty tokens dropped,
      each token normalised. */
  function QmkKeys(args: string): (keys: seq<string>)
  {
    var ts := NonEmpty(Split(RemoveSpaces(args), ','));
    seq(|ts|, k requires 0 <= k < |ts| => NormalizeQmkKeycode(ts[k]))
  }

  /** The layers after all matches from `i` on have been stored into `ls`; each layer's label is its name. */
  function QmkScan(s: string, i: nat, ls: Layers, close: ArgsEnd): Layers
    requires i <= |s|
    decreases |s| - i
  {
    match QmkLayerFrom(s, i, close)
    case None => ls
    case Some(m) => QmkScan(s, m.end, Put(ls, Layer(m.name, m.name, QmkKeys(m.args))), close)
  }

  function QmkKeymap(text: string, close: ArgsEnd): Layers
  {
    QmkScan(text, 0, NoLayers, close)
  }

  /** `parseQmkKeymap`: the `while ((match = layerPattern.exec(text)) !== null)` loop. */
  method ParseQmkKeymap(text: string) returns (layers: Layers)
    ensures layers == QmkKeymap(text, AtFirstClose)
  {
    layers := NoLayers;
    var pos := 0;
    var m := QmkLayerFrom(text, 0, AtFirstClose);
    while m.Some?
      invariant pos <= |text| && m == QmkLayerFrom(text, pos, AtFirstClose)
      invariant QmkScan(text, pos, layers, AtFirstClose) == QmkKeymap(text, AtFirstClose)
      decreases |text| - pos
    {
      var name := m.value.name;
      layers := Put(layers, Layer(name, name, QmkKeys(m.value.args)));
      pos := m.value.end;
      m := QmkLayerFrom(text, pos, AtFirstClose);
    }
  }

  /** The QMK layers list every name once, each entry carrying its own name, and label each layer with
      its name. */
  ghost predicate QmkLayersValid(ls: Layers)
  {
    LayersValid(ls) && forall n :: n in ls.byName ==> ls.byName[n].caption == n
  }

  lemma {:induction false} QmkScanValid(s: string, i: nat, ls: Layers, close: ArgsEnd)
    requires i <= |s| && QmkLayersValid(ls)
    ensures QmkLayersValid(QmkScan(s, i, ls, close))
    decreases |s| - i
  {
    match QmkLayerFrom(s, i, close)
    case None =>
    case Some(m) =>
      var layer := Layer(m.name, m.name, QmkKeys(m.args));
      PutValid(ls, layer);
      QmkScanValid(s, m.end, Put(ls, layer), close);
  }

  lemma {:induction false} QmkKeymapValid(text: string, close: ArgsEnd)
    ensures QmkLayersValid(QmkKeymap(text, close))
  {
    QmkScanValid(text, 0, NoLayers, close);
  }

  /** Tokens that are non-empty and free of `,` and whitespace, joined with `,`, come back as the layer's
      keys, each normalised, in order. */
  lemma {:induction false} QmkKeysOfTokens(ts: seq<string>)
    requires |ts| >= 1
    requires forall k :: 0 <= k < |ts| ==> ts[k] != [] && ',' !in ts[k] && NoSpace(ts[k])
    ensures QmkKeys(Join(ts, ',')) == seq(|ts|, k requires 0 <= k < |ts| => NormalizeQmkKeycode(ts[k]))
  {
    JoinNoSpace(ts, ',');
    RemoveSpacesKeeps(Join(ts, ','));
    SplitOf(Join(ts, ','), ',', ts);
    NonEmptyKeeps(ts);
  }

  lemma {:induction false} NonEmptyKeeps(ts: seq<string>)
    requires forall k :: 0 <= k < |ts| ==> ts[k] != []
    ensures NonEmpty(ts) == ts
    decreases |ts|
  {
    if ts != [] {
      NonEmptyKeeps(ts[1..]);
      assert [ts[0]] + ts[1..] == ts;
    }
  }

  lemma {:induction false} JoinNoSpace(ts: seq<string>, sep: char)
    requires |ts| >= 1 && !IsSpace(sep)
    requires forall k :: 0 <= k < |ts| ==> NoSpace(ts[k])
    ensures NoSpace(Join(ts, sep))
    decreases |ts|
  {
    if |ts| > 1 {
      JoinNoSpace(ts[1..], sep);
    }
  }

  /** The layer pattern at index 0 of a text shaped `[_` word `]=LAYOUT(`...: the match holds the word
      and the arguments up to `c`, the `)` that `close` picks. */
  lemma {:induction false} QmkLayerHeadAt(s: string, w: nat, c: nat, close: ArgsEnd)
    requires 2 < w && w + 9 <= |s|
    requires s[0] == '[' && s[1] == '_' && s[w] == ']' && s[w + 1] == '='
    requires forall k :: 2 <= k < w ==> IsWordChar(s[k])
    requires OccursAt(s, w + 2, "LAYOUT(")
    requires ArgsClose(s, w + 9, close) == Some(c)
    ensures QmkLayerAt(s, 0, close) == Some(QmkLayerMatch(s[2..w], s[w + 9..c], c + 1))
  {
    QmkLayerHeadIs(s, w);
  }

  lemma {:induction false} QmkLayerHeadIs(s: string, w: nat)
    requires 2 < w && w + 9 <= |s|
    requires s[0] == '[' && s[1] == '_' && s[w] == ']' && s[w + 1] == '='
    requires forall k :: 2 <= k < w ==> IsWordChar(s[k])
    requires OccursAt(s, w + 2, "LAYOUT(")
    ensures QmkLayerHead(s, 0) == Some((s[2..w], w + 9))
  {
    assert Span(s, 2, WordClass) == w by { SpanIs(s, 2, w, WordClass); }
    assert Span(s, w + 1, SpaceClass) == w + 1 by { SpanIs(s, w + 1, w + 1, SpaceClass); }
    assert Span(s, w + 2, SpaceClass) == w + 2 by {
      assert s[w + 2 + 0] == "LAYOUT("[0];
      SpanIs(s, w + 2, w + 2, SpaceClass);
    }
  }

  /** The layer pattern at index 0 of a text shaped `[_` word `]=LAYOUT(` text-without-`)` `)`: the lazy
      group stops at the first `)`. */
  lemma {:induction false} QmkLayerAtStart(s: string, w: nat, c: nat)
    requires 2 < w && w + 9 <= c < |s|
    requires s[0] == '[' && s[1] == '_' && s[w] == ']' && s[w + 1] == '=' && s[c] == ')'
    requires forall k :: 2 <= k < w ==> IsWordChar(s[k])
    requires OccursAt(s, w + 2, "LAYOUT(")
    requires forall k :: w + 9 <= k < c ==> s[k] != ')'
    ensures QmkLayerAt(s, 0, AtFirstClose) == Some(QmkLayerMatch(s[2..w], s[w + 9..c], c + 1))
  {
    assert Span(s, w + 9, Except(')')) == c by { SpanIs(s, w + 9, c, Except(')')); }
    QmkLayerHeadAt(s, w, c, AtFirstClose);
  }

  /** A text holding one layer `[_name]=LAYOUT(args)`, with `args` free of `)`, parses to that one layer,
      labelled with its name, whose keys are those of `args`. */
  lemma {:induction false} QmkSingleLayer(name: string, args: string)
    requires name != [] && forall k :: 0 <= k < |name| ==> IsWordChar(name[k])
    requires ')' !in args
    ensures var text := "[_" + name + "]=LAYOUT(" + args + ")";
            QmkKeymap(text, AtFirstClose) == Layers([name], map[name := Layer(name, name, QmkKeys(args))])
  {
    var text := "[_" + name + "]=LAYOUT(" + args + ")";
    QmkLayerText(name, args, [], text);
    QmkLayerAtStart(text, 2 + |name|, |text| - 1);
    QmkWholeText(text, QmkLayerMatch(name, args, |text|), AtFirstClose);
  }

  /** A text whose first match runs to its end holds exactly that layer. */
  lemma {:induction false} QmkWholeText(s: string, m: QmkLayerMatch, close: ArgsEnd)
    requires QmkLayerAt(s, 0, close) == Some(m) && m.end == |s|
    ensures QmkKeymap(s, close) == Layers([m.name], map[m.name := Layer(m.name, m.name, QmkKeys(m.args))])
  {
    var layer := Layer(m.name, m.name, QmkKeys(m.args));
    assert QmkLayerFrom(s, 0, close) == Some(m);
    assert QmkLayerFrom(s, |s|, close).None?;
    assert QmkScan(s, |s|, Put(NoLayers, layer), close) == Put(NoLayers, layer);
  }

  /** Where the parts of `[_name]=LAYOUT(args)` followed by `rest` lie. */
  lemma {:induction false} QmkLayerText(name: string, args: string, rest: string, text: string)
    requires name != [] && forall k :: 0 <= k < |name| ==> IsWordChar(name[k])
    requires text == "[_" + name + "]=LAYOUT(" + args + ")" + rest
    ensures var (w, c) := (2 + |name|, 2 + |name| + 9 + |args|);
            && 2 < w && w + 9 <= c < |text| && c + 1 + |rest| == |text|
            && text[0] == '[' && text[1] == '_' && text[w] == ']' && text[w + 1] == '=' && text[c] == ')'
            && (forall k :: 2 <= k < w ==> IsWordChar(text[k]))
            && OccursAt(text, w + 2, "LAYOUT(")
            && (forall k :: w + 9 <= k < c ==> text[k] == args[k - w - 9])
            && (forall k :: c < k < |text| ==> text[k] == rest[k - c - 1])
            && text[2..w] == name && text[w + 9..c] == args
  {
    var w, c := 2 + |name|, 2 + |name| + 9 + |args|;
    assert forall k :: 2 <= k < w ==> text[k] == name[k - 2];
    assert forall k :: w + 9 <= k < c ==> text[k] == args[k - w - 9];
    assert forall k :: c < k < |text| ==> text[k] == rest[k - c - 1];
    assert text[w + 2..w + 9] == "LAYOUT(";
  }

  // The lazy argument group, and the parenthesis that was meant to end it.

  /** As written, a layer's arguments end at the first `)`, so they never hold one: a modifier application
      `MOD(x)` among the keys ends the layer at its own `)`, and `normalizeQmkKeycode`, which needs the
      `)` to recognise it, never sees it whole. */
  lemma {:induction false} QmkArgsHoldNoClose(s: string, i: nat)
    requires i <= |s| && QmkLayerAt(s, i, AtFirstClose).Some?
    ensures ')' !in QmkLayerAt(s, i, AtFirstClose).value.args
  {
    var a := QmkLayerHead(s, i).value.1;
    var c := Span(s, a, Except(')'));
    assert QmkLayerAt(s, i, AtFirstClose).value.args == s[a..c];
  }

  /** What is left of a modifier application once its `)` is cut off matches neither a modifier nor a
      renamed code, so it is kept as it is. */
  lemma {:induction false} QmkUnclosedKept(m: string, x: string)
    requires m in QmkMods
    requires forall k :: 0 <= k < |x| ==> x[k] != ')'
    ensures NormalizeQmkKeycode(m + "(" + x) == m + "(" + x
  {
    var code := m + "(" + x;
    assert |m| == 4 && (m[0] == 'L' || m[0] == 'R') && forall k :: 0 <= k < 4 ==> m[k] != ')';
    assert code[0] == m[0] && code[4] == '(';
    NotKc(code);
    assert code != "_______" && code != "0x0068" && code != "0x0069" by {
      assert code[0] != '_' && code[0] != '0';
    }
    assert forall k :: 0 <= k < |code| ==> code[k] != ')' by {
      assert forall k :: 5 <= k < |code| ==> code[k] == x[k - 5];
    }
    NoCloseModFrom(code, 0);
    RenamedHaveNoParen(code);
  }

  /** No name of the rename table holds `(`. */
  lemma {:induction false} RenamedHaveNoParen(code: string)
    ensures QmkRename(code).Some? ==> '(' !in code
  {
  }

  /** A code with no `)` holds no modifier application: `(.*?)\)` cannot close. */
  lemma {:induction false} NoCloseModFrom(s: string, i: nat)
    requires i <= |s| && forall k :: 0 <= k < |s| ==> s[k] != ')'
    ensures ModFrom(s, i).None?
    decreases |s| - i
  {
    if i + 5 <= |s| {
      NoCloseParen(s, i + 5);
    }
    if i < |s| {
      NoCloseModFrom(s, i + 1);
    }
  }

  lemma {:induction false} NoCloseParen(s: string, j: nat)
    requires j <= |s| && forall k :: j <= k < |s| ==> s[k] != ')'
    ensures CloseParen(s, j).None?
    decreases |s| - j
  {
    if j < |s| && !IsLineTerminator(s[j]) {
      NoCloseParen(s, j + 1);
    }
  }

  /** As written: the layer `[_name]=LAYOUT(MOD(x))` ends at the `)` of `MOD(x)`, and its one key is the
      text `MOD(x` unchanged, not the modifier application the normaliser handles. */
  lemma {:induction false} QmkModifierCut(name: string, m: string, x: string)
    requires name != [] && forall k :: 0 <= k < |name| ==> IsWordChar(name[k])
    requires m in QmkMods && x != [] && NoSpace(x)
    requires forall k :: 0 <= k < |x| ==> x[k] != '(' && x[k] != ')' && x[k] != ','
    ensures var text := "[_" + name + "]=LAYOUT(" + m + "(" + x + "))";
            QmkKeymap(text, AtFirstClose) == Layers([name], map[name := Layer(name, name, [m + "(" + x])])
  {
    var text := "[_" + name + "]=LAYOUT(" + m + "(" + x + "))";
    var layer := Layer(name, name, QmkKeys(m + "(" + x));
    ModifierLayerCut(name, m, x, text);
    assert QmkLayerFrom(text, 0, AtFirstClose) == Some(QmkLayerMatch(name, m + "(" + x, |text| - 1));
    assert QmkLayerFrom(text, |text| - 1, AtFirstClose).None? by {
      assert QmkLayerFrom(text, |text|, AtFirstClose).None?;
    }
    assert QmkScan(text, |text| - 1, Put(NoLayers, layer), AtFirstClose) == Put(NoLayers, layer);
    ModifierKeyCut(m, x);
  }

  /** The match of the layer pattern on `[_name]=LAYOUT(MOD(x))`, as written. */
  lemma {:induction false} ModifierLayerCut(name: string, m: string, x: string, text: string)
    requires name != [] && forall k :: 0 <= k < |name| ==> IsWordChar(name[k])
    requires m in QmkMods && NoSpace(x)
    requires forall k :: 0 <= k < |x| ==> x[k] != '(' && x[k] != ')' && x[k] != ','
    requires text == "[_" + name + "]=LAYOUT(" + m + "(" + x + "))"
    ensures QmkLayerAt(text, 0, AtFirstClose) == Some(QmkLayerMatch(name, m + "(" + x, |text| - 1))
    ensures text[|text| - 1] == ')'
  {
    var w, c := 2 + |name|, 2 + |name| + 9 + |m + "(" + x|;
    ModifierTextCut(name, m, x, text);
    QmkLayerAtStart(text, w, c);
  }

  /** Where the parts of `[_name]=LAYOUT(MOD(x))` lie, up to the first `)`. */
  lemma {:induction false} ModifierTextCut(name: string, m: string, x: string, text: string)
    requires name != [] && forall k :: 0 <= k < |name| ==> IsWordChar(name[k])
    requires m in QmkMods && NoSpace(x)
    requires forall k :: 0 <= k < |x| ==> x[k] != '(' && x[k] != ')' && x[k] != ','
    requires text == "[_" + name + "]=LAYOUT(" + m + "(" + x + "))"
    ensures var (w, c) := (2 + |name|, 2 + |name| + 9 + |m + "(" + x|);
            && 2 < w && w + 9 <= c && c + 2 == |text|
            && text[0] == '[' && text[1] == '_' && text[w] == ']' && text[w + 1] == '='
            && text[c] == ')' && text[c + 1] == ')'
            && (forall k :: 2 <= k < w ==> IsWordChar(text[k]))
            && OccursAt(text, w + 2, "LAYOUT(")
            && (forall k :: w + 9 <= k < c ==> text[k] != ')')
            && text[2..w] == name && text[w + 9..c] == m + "(" + x
  {
    var code := m + "(" + x;
    assert text == "[_" + name + "]=LAYOUT(" + code + ")" + ")";
    QmkLayerText(name, code, ")", text);
    ModifierCodeChars(m, x, code);
    var w, c := 2 + |name|, 2 + |name| + 9 + |code|;
    forall k | w + 9 <= k < c
      ensures text[k] != ')'
    {
      assert text[k] == code[k - w - 9];
    }
  }

  /** The key, as written, of the layer `[_name]=LAYOUT(MOD(x))`. */
  lemma {:induction false} ModifierKeyCut(m: string, x: string)
    requires m in QmkMods && NoSpace(x)
    requires forall k :: 0 <= k < |x| ==> x[k] != '(' && x[k] != ')' && x[k] != ','
    ensures QmkKeys(m + "(" + x) == [m + "(" + x]
  {
    var code := m + "(" + x;
    ModifierCodeChars(m, x, code);
    QmkKeysOfTokens([code]);
    QmkUnclosedKept(m, x);
  }

  /** The characters of `MOD(x`: the modifier's letters, `(`, then `x`. */
  lemma {:induction false} ModifierCodeChars(m: string, x: string, code: string)
    requires m in QmkMods && NoSpace(x)
    requires forall k :: 0 <= k < |x| ==> x[k] != '(' && x[k] != ')' && x[k] != ','
    requires code == m + "(" + x
    ensures code != [] && ',' !in code && NoSpace(code)
    ensures forall k :: 0 <= k < |code| ==> code[k] != ')'
    ensures forall k :: 0 <= k < |code| ==> (code[k] == '(' <==> k == 4)
  {
    assert forall k :: 0 <= k < 4 ==> 'A' <= m[k] <= 'Z';
    assert forall k :: 5 <= k < |code| ==> code[k] == x[k - 5];
  }

  /** The `)` that closes `LAYOUT(` is found past any stretch without parentheses. */
  lemma {:induction false} ParenFree(s: string, j: nat, e: nat, depth: nat)
    requires j <= e <= |s| && forall k :: j <= k < e ==> s[k] != '(' && s[k] != ')'
    ensures MatchingParen(s, j, depth) == MatchingParen(s, e, depth)
    decreases e - j
  {
    if j < e {
      ParenFree(s, j + 1, e, depth);
    }
  }

  /** As intended: ending the arguments at the `)` that closes `LAYOUT(`, the layer `[_name]=LAYOUT(MOD(x))`
      has the one key the normaliser makes of `MOD(x)`: the modifier without its side, `+`, and `x`
      normalised. */
  lemma {:induction false} QmkModifierKept(name: string, m: string, x: string)
    requires name != [] && forall k :: 0 <= k < |name| ==> IsWordChar(name[k])
    requires m in QmkMods && x != [] && NoSpace(x)
    requires forall k :: 0 <= k < |x| ==> x[k] != '(' && x[k] != ')' && x[k] != ','
    ensures var text := "[_" + name + "]=LAYOUT(" + m + "(" + x + "))";
            QmkKeymap(text, AtMatchingClose)
            == Layers([name], map[name := Layer(name, name, [m[1..] + "+" + NormalizeQmkKeycode(x)])])
  {
    var text := "[_" + name + "]=LAYOUT(" + m + "(" + x + "))";
    ModifierLayerKept(name, m, x, text);
    QmkWholeText(text, QmkLayerMatch(name, m + "(" + x + ")", |text|), AtMatchingClose);
    ModifierKeyKept(m, x);
  }

  /** The match on `[_name]=LAYOUT(MOD(x))` when the arguments end at the `)` that closes `LAYOUT(`. */
  lemma {:induction false} ModifierLayerKept(name: string, m: string, x: string, text: string)
    requires name != [] && forall k :: 0 <= k < |name| ==> IsWordChar(name[k])
    requires m in QmkMods && NoSpace(x)
    requires forall k :: 0 <= k < |x| ==> x[k] != '(' && x[k] != ')' && x[k] != ','
    requires text == "[_" + name + "]=LAYOUT(" + m + "(" + x + "))"
    ensures QmkLayerAt(text, 0, AtMatchingClose) == Some(QmkLayerMatch(name, m + "(" + x + ")", |text|))
  {
    var w := 2 + |name|;
    var o := w + 9 + |m|;
    var c := o + 1 + |x| + 1;
    ModifierTextKept(name, m, x, text);
    ParenFree(text, w + 9, o, 0);
    ParenFree(text, o + 1, c - 1, 1);
    assert MatchingParen(text, w + 9, 0) == Some(c);
    QmkLayerHeadAt(text, w, c, AtMatchingClose);
  }

  /** Where the parts of `[_name]=LAYOUT(MOD(x))` lie, up to the `)` that closes `LAYOUT(`. */
  lemma {:induction false} ModifierTextKept(name: string, m: string, x: string, text: string)
    requires name != [] && forall k :: 0 <= k < |name| ==> IsWordChar(name[k])
    requires m in QmkMods && NoSpace(x)
    requires forall k :: 0 <= k < |x| ==> x[k] != '(' && x[k] != ')' && x[k] != ','
    requires text == "[_" + name + "]=LAYOUT(" + m + "(" + x + "))"
    ensures var (w, o) := (2 + |name|, 2 + |name| + 9 + |m|);
            var c := o + 1 + |x| + 1;
            && 2 < w && w + 9 <= o && c + 1 == |text|
            && text[0] == '[' && text[1] == '_' && text[w] == ']' && text[w + 1] == '='
            && text[o] == '(' && text[c - 1] == ')' && text[c] == ')'
            && (forall k :: 2 <= k < w ==> IsWordChar(text[k]))
            && OccursAt(text, w + 2, "LAYOUT(")
            && (forall k :: w + 9 <= k < o ==> text[k] != '(' && text[k] != ')')
            && (forall k :: o + 1 <= k < c - 1 ==> text[k] != '(' && text[k] != ')')
            && text[2..w] == name && text[w + 9..c] == m + "(" + x + ")"
  {
    var open := m + "(" + x;
    var code := open + ")";
    assert text == "[_" + name + "]=LAYOUT(" + code + ")" + [];
    QmkLayerText(name, code, [], text);
    ModifierCodeChars(m, x, open);
    var w := 2 + |name|;
    forall k | w + 9 <= k < w + 9 + |open|
      ensures text[k] == open[k - w - 9]
    {
    }
  }

  /** The key, as intended, of the layer `[_name]=LAYOUT(MOD(x))`. */
  lemma {:induction false} ModifierKeyKept(m: string, x: string)
    requires m in QmkMods && NoSpace(x)
    requires forall k :: 0 <= k < |x| ==> x[k] != '(' && x[k] != ')' && x[k] != ','
    ensures QmkKeys(m + "(" + x + ")") == [m[1..] + "+" + NormalizeQmkKeycode(x)]
  {
    var open := m + "(" + x;
    var code := open + ")";
    ModifierCodeChars(m, x, open);
    assert code != [] && ',' !in code && NoSpace(code) by {
      assert forall k :: 0 <= k < |open| ==> code[k] == open[k];
    }
    QmkKeysOfTokens([code]);
    QmkModifier(m, x);
  }

  /** Where the arguments up to the first `)` open no parenthesis, ending them at the `)` that closes
      `LAYOUT(` finds the same layer: the two readings differ only on keymaps with nested parentheses. */
  lemma {:induction false} QmkClosesAgree(s: string, i: nat)
    requires i <= |s| && QmkLayerAt(s, i, AtFirstClose).Some?
    requires '(' !in QmkLayerAt(s, i, AtFirstClose).value.args
    ensures QmkLayerAt(s, i, AtMatchingClose) == QmkLayerAt(s, i, AtFirstClose)
  {
    var a := QmkLayerHead(s, i).value.1;
    var c := Span(s, a, Except(')'));
    assert QmkLayerAt(s, i, AtFirstClose).value.args == s[a..c];
    assert forall k :: a <= k < c ==> s[k] == s[a..c][k - a];
    ParenFree(s, a, c, 0);
  }

  // ---------------------------------------------------------------------------------------------------
  // `parseKeymapMacro`: the choice between the two branches.
  // ---------------------------------------------------------------------------------------------------

  /** The layers `parseKeymapMacro` returns: a text holding the QMK marker goes to the QMK branch, any other
      to the devicetree loop. */
  function KeymapMacro(text: string, classify: string -> string): Layers
  {
    if Contains(text, QmkMarker) then QmkKeymap(text, AtFirstClose) else DtKeymap(text, classify)
  }

  method ParseKeymapMacro(text: string) returns (layers: Layers)
    ensures layers == KeymapMacro(text, Classify)
  {
    if Contains(text, QmkMarker) {
      layers := ParseQmkKeymap(text);
    } else {
      layers := ParseDtKeymap(text, Classify);
    }
  }

  /** Whichever branch runs, every layer name is listed once, in step with the entries. */
  lemma {:induction false} KeymapMacroValid(text: string, classify: string -> string)
    ensures LayersValid(KeymapMacro(text, classify))
  {
    if Contains(text, QmkMarker) {
      QmkKeymapValid(text, AtFirstClose);
    } else {
      DtKeymapValid(text, classify);
    }
  }
}
