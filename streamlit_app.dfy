/** streamlit_app.py, the Python port of the viewer: `parse_keymap_layout` reads every
    `&key_physical_attrs` directive of a text into a key, and `parse_keymap_macro` reads a flat list of
    labels with anchored matching (`re.match`) and without skipping comments. */
module StreamlitApp {
  import opened Text
  import Bindings
  import Keymap
  import PhysicalLayout
  import LegacyMain

  // ---------------------------------------------------------------------------------------------------
  // parse_keymap_layout (streamlit_app.py:18-33)
  // ---------------------------------------------------------------------------------------------------

  /** The dictionary appended per match: the integers as written, the pivot dropped. */
  datatype PyKey = PyKey(x: int, y: int, w: int, h: int, r: int)

  function PyKeyOf(a: PhysicalLayout.Attrs): PyKey
  {
    PyKey(a.x, a.y, a.w, a.h, a.r)
  }

  /** The keys of the directives found, one per directive, in order. */
  function LayoutKeys(found: seq<PhysicalLayout.Attrs>): (keys: seq<PyKey>)
    ensures |keys| == |found|
    ensures forall i :: 0 <= i < |found| ==> keys[i] == PyKeyOf(found[i])
  {
    if found == [] then [] else LayoutKeys(found[..|found| - 1]) + [PyKeyOf(found[|found| - 1])]
  }

  lemma {:induction false} LayoutKeysSnoc(found: seq<PhysicalLayout.Attrs>, a: PhysicalLayout.Attrs)
    ensures LayoutKeys(found + [a]) == LayoutKeys(found) + [PyKeyOf(a)]
  {
    assert (found + [a])[..|found|] == found;
  }

  /** The pattern of line 21 is the directive pattern without the parenthesised form of a negative
      number: its scan is `PhysicalLayout.Directives` with `parens` off. */
  function LayoutOf(text: string): seq<PyKey>
  {
    LayoutKeys(PhysicalLayout.Directives(text, 0, false))
  }

  /** `parse_keymap_layout`: the `finditer` loop, appending one key per match. */
  method ParseKeymapLayout(text: string) returns (keys: seq<PyKey>)
    ensures keys == LayoutOf(text)
  {
    keys := [];
    ghost var found: seq<PhysicalLayout.Attrs> := [];
    ghost var all := PhysicalLayout.Directives(text, 0, false);
    var pos := 0;
    while pos < |text|
      invariant pos <= |text|
      invariant found + PhysicalLayout.Directives(text, pos, false) == all
      invariant keys == LayoutKeys(found)
      decreases |text| - pos
    {
      var m := PhysicalLayout.DirectiveAt(text, pos, false);
      if m.Some? {
        var (a, e) := m.value;
        PhysicalLayout.DirectiveStep(text, pos, false, a, e);
        ghost var rest := PhysicalLayout.Directives(text, e, false);
        assert found + ([a] + rest) == (found + [a]) + rest;
        LayoutKeysSnoc(found, a);
        keys := keys + [PyKeyOf(a)];
        found := found + [a];
        pos := e;
      } else {
        PhysicalLayout.NoDirectiveStep(text, pos, false);
        pos := pos + 1;
      }
    }
    assert found == all;
  }

  /** The first two fields of a directive are `\d+`: width and height are never negative. */
  lemma {:induction false} FieldsNonNegative(s: string, i: nat, k: nat, parens: bool)
    requires i <= |s| && k <= 7
    ensures var r := PhysicalLayout.FieldsAt(s, i, k, parens);
            r.Some? ==> forall j :: 0 <= j < 2 - k ==> r.value.0[j] >= 0
    decreases 7 - k
  {
    if k < 2 {
      var j := Span(s, i, SpaceClass);
      if j != i {
        var v := PhysicalLayout.UnsignedAt(s, j);
        if v.Some? {
          FieldsNonNegative(s, v.value.1, k + 1, parens);
          var rest := PhysicalLayout.FieldsAt(s, v.value.1, k + 1, parens);
          if rest.Some? {
            assert PhysicalLayout.FieldsAt(s, i, k, parens) == Some(([v.value.0] + rest.value.0, rest.value.1));
          }
        }
      }
    }
  }

  lemma {:induction false} DirectivesNonNegative(s: string, from: nat, parens: bool)
    requires from <= |s|
    ensures forall a :: a in PhysicalLayout.Directives(s, from, parens) ==> a.w >= 0 && a.h >= 0
    decreases |s| - from
  {
    if from < |s| {
      match PhysicalLayout.DirectiveAt(s, from, parens)
      case Some((a, e)) =>
        FieldsNonNegative(s, from + |PhysicalLayout.DirectiveTag|, 0, parens);
        DirectivesNonNegative(s, e, parens);
      case None =>
        DirectivesNonNegative(s, from + 1, parens);
    }
  }

  /** One key per directive, in the order they occur, with no deduplication: `w, h, x, y, r` as written
      (the rotation not divided by 100), `w` and `h` never negative. */
  lemma {:induction false} LayoutKeysAre(text: string)
    ensures var found := PhysicalLayout.Directives(text, 0, false);
            var keys := LayoutOf(text);
            && |keys| == |found|
            && forall i :: 0 <= i < |keys| ==>
                 && keys[i].x == found[i].x && keys[i].y == found[i].y
                 && keys[i].w == found[i].w && keys[i].h == found[i].h && keys[i].r == found[i].r
                 && keys[i].w >= 0 && keys[i].h >= 0
  {
    var found := PhysicalLayout.Directives(text, 0, false);
    DirectivesNonNegative(text, 0, false);
    assert forall i :: 0 <= i < |found| ==> found[i] in found;
  }

  /** A field written `(-N)` is not a number for this pattern. */
  lemma {:induction false} ParensRejected(s: string, i: nat)
    requires i < |s| && s[i] == '('
    ensures PhysicalLayout.SignedAt(s, i, false).None?
  {
    assert Span(s, i, DigitClass) == i;
  }

  lemma {:induction false} SignedNoParens(s: string, i: nat)
    requires i <= |s| && '(' !in s
    ensures PhysicalLayout.SignedAt(s, i, true) == PhysicalLayout.SignedAt(s, i, false)
  {
    if i < |s| {
      assert s[i] in s;
    }
  }

  lemma {:induction false} FieldsNoParens(s: string, i: nat, k: nat)
    requires i <= |s| && k <= 7 && '(' !in s
    ensures PhysicalLayout.FieldsAt(s, i, k, true) == PhysicalLayout.FieldsAt(s, i, k, false)
    decreases 7 - k
  {
    if k < 7 {
      var j := Span(s, i, SpaceClass);
      if j != i {
        SignedNoParens(s, j);
        var v := if k < 2 then PhysicalLayout.UnsignedAt(s, j) else PhysicalLayout.SignedAt(s, j, false);
        if v.Some? {
          FieldsNoParens(s, v.value.1, k + 1);
        }
      }
    }
  }

  /** On a text without `(`, this scan finds exactly the directives the devicetree path of
      js/keyboard.js finds; the two versions then differ only in deduplication and in the rotation. */
  lemma {:induction false} SameDirectivesWithoutParens(s: string, from: nat)
    requires from <= |s| && '(' !in s
    ensures PhysicalLayout.Directives(s, from, true) == PhysicalLayout.Directives(s, from, false)
    decreases |s| - from
  {
    if from < |s| {
      if StartsWith(s[from..], PhysicalLayout.DirectiveTag) {
        FieldsNoParens(s, from + |PhysicalLayout.DirectiveTag|, 0);
      }
      assert PhysicalLayout.DirectiveAt(s, from, true) == PhysicalLayout.DirectiveAt(s, from, false);
      match PhysicalLayout.DirectiveAt(s, from, false)
      case Some((a, e)) => SameDirectivesWithoutParens(s, e);
      case None => SameDirectivesWithoutParens(s, from + 1);
    }
  }

  /** Every key the devicetree path of js/keyboard.js draws for a block without `(` is one of the keys
      this version reads from it, with the rotation divided by 100. */
  lemma {:induction false} DevicetreeKeysAmongThese(b: string)
    requires '(' !in b
    ensures var keys := LayoutOf(b);
            forall g :: g in PhysicalLayout.ZmkPhysicalLayout(Some(b)) ==>
              exists i :: 0 <= i < |keys| &&
                g.x == keys[i].x as real && g.y == keys[i].y as real && g.w == keys[i].w as real &&
                g.h == keys[i].h as real && g.r == keys[i].r as real / 100.0
  {
    var found := PhysicalLayout.Directives(b, 0, true);
    SameDirectivesWithoutParens(b, 0);
    PhysicalLayout.ZmkPhysicalLayoutKeys(b);
    var keys := LayoutOf(b);
    forall g | g in PhysicalLayout.ZmkPhysicalLayout(Some(b))
      ensures exists i :: 0 <= i < |keys| &&
                g.x == keys[i].x as real && g.y == keys[i].y as real && g.w == keys[i].w as real &&
                g.h == keys[i].h as real && g.r == keys[i].r as real / 100.0
    {
      var i :| 0 <= i < |found| && g == PhysicalLayout.AttrsKey(found[i]);
      assert keys[i] == PyKeyOf(found[i]);
    }
  }

  // ---------------------------------------------------------------------------------------------------
  // parse_keymap_macro (streamlit_app.py:35-75)
  // ---------------------------------------------------------------------------------------------------

  /** The loop body on a line as read, untrimmed: a line holding `bindings = <` sets the flag even when it
      also holds `>;` (the `elif`); a blank line, or any line outside a block, is passed over; any other
      line, comments included, adds the label of each of its fragments. */
  function PyStep(st: LegacyMain.MacroState, line: string, classify: string -> string): LegacyMain.MacroState
  {
    if Contains(line, "bindings = <") then st.(inBindings := true)
    else if Contains(line, ">;") then st.(inBindings := false)
    else if !st.inBindings || Trim(line) == [] then st
    else st.(keymap := st.keymap + Keymap.Labels(Keymap.Pieces(Split(line, '&')), classify))
  }

  function PyRun(lines: seq<string>, n: nat, classify: string -> string): LegacyMain.MacroState
    requires n <= |lines|
  {
    if n == 0 then LegacyMain.MacroState([], false) else PyStep(PyRun(lines, n - 1, classify), lines[n - 1], classify)
  }

  /** The labels `parse_keymap_macro` returns when every fragment's label can be read; the program
      passes `Bindings.ClassifyAnchored`. */
  function PyKeymap(text: string, classify: string -> string): seq<string>
  {
    var lines := Split(text, '\n');
    PyRun(lines, |lines|, classify).keymap
  }

  /** A block marker adds no label, and `bindings = <` wins when a line holds both markers. */
  lemma {:induction false} PyMarkers(st: LegacyMain.MacroState, line: string, classify: string -> string)
    requires Contains(line, "bindings = <") || Contains(line, ">;")
    ensures PyStep(st, line, classify).keymap == st.keymap
    ensures PyStep(st, line, classify).inBindings == Contains(line, "bindings = <")
  {
  }

  /** A non-blank line inside a block, whatever it starts with (`//` too), keeps the labels so far and
      appends one label per piece of `line.split('&')` that is not blank once stripped: the label of
      that piece, stripped, as a fragment. */
  lemma {:induction false} PyBindingLine(st: LegacyMain.MacroState, line: string, classify: string -> string)
    requires !Contains(line, "bindings = <") && !Contains(line, ">;")
    requires st.inBindings && Trim(line) != []
    ensures var st' := PyStep(st, line, classify);
            var parts := Split(line, '&');
            && st'.inBindings
            && |st'.keymap| == |st.keymap| + Keymap.CountNonBlank(parts)
            && st'.keymap[..|st.keymap|] == st.keymap
            && LegacyMain.LabelsOfParts(st'.keymap, |st.keymap|, parts, classify)
  {
    var parts := Split(line, '&');
    var ps := Keymap.Pieces(parts);
    var st' := PyStep(st, line, classify);
    Keymap.PiecesCount(parts);
    Keymap.PiecesAreTrimmedParts(parts);
    assert st'.keymap == st.keymap + Keymap.Labels(ps, classify);
    forall i | |st.keymap| <= i < |st'.keymap|
      ensures LegacyMain.LabelOfPart(st'.keymap[i], parts, classify)
    {
      var p := ps[i - |st.keymap|];
      assert st'.keymap[i] == classify("&" + p);
      assert Keymap.TrimmedPart(p, parts) && p != [];
    }
    assert LegacyMain.LabelsOfParts(st'.keymap, |st.keymap|, parts, classify);
  }

  /** `parse_keymap_macro` with each fragment's label given by `classify`. */
  method ParseKeymapMacro(text: string, classify: string -> string) returns (keymap: seq<string>)
    ensures keymap == PyKeymap(text, classify)
  {
    var lines := Split(text, '\n');
    keymap := [];
    var inBindings := false;
    var i := 0;
    while i < |lines|
      invariant i <= |lines|
      invariant LegacyMain.MacroState(keymap, inBindings) == PyRun(lines, i, classify)
    {
      keymap, inBindings := PyLine(keymap, inBindings, lines[i], classify);
      i := i + 1;
    }
  }

  /** The body of the line loop (streamlit_app.py:49-73). */
  method PyLine(keymap: seq<string>, inBindings: bool, line: string, classify: string -> string)
    returns (keymap': seq<string>, inBindings': bool)
    ensures LegacyMain.MacroState(keymap', inBindings') == PyStep(LegacyMain.MacroState(keymap, inBindings), line, classify)
  {
    keymap', inBindings' := keymap, inBindings;
    if Contains(line, "bindings = <") {
      inBindings' := true;
      return;
    } else if Contains(line, ">;") {
      inBindings' := false;
      return;
    }
    if !inBindings || Trim(line) == [] {
      return;
    }
    var keycodes := Keymap.Pieces(Split(line, '&'));
    var j := 0;
    while j < |keycodes|
      invariant j <= |keycodes|
      invariant keymap' == keymap + Keymap.Labels(keycodes[..j], classify)
    {
      var key := classify("&" + keycodes[j]);
      TakeSnoc(keycodes, j);
      Keymap.LabelsAppend(keycodes[..j], [keycodes[j]], classify);
      Keymap.LabelsOne(keycodes[j], classify);
      AppendAssoc(keymap, Keymap.Labels(keycodes[..j], classify), [key]);
      keymap' := keymap' + [key];
      j := j + 1;
    }
    assert keycodes[..j] == keycodes;
  }

  // ---------------------------------------------------------------------------------------------------
  // The label lookup as written: `transformer(match.group(1))` on a pattern without a group.
  // ---------------------------------------------------------------------------------------------------

  /** The label the pattern loop of streamlit_app.py:64-70 computes from index `k` of the patterns on,
      or `None` where `match.group(1)` raises `IndexError` because the first pattern that matches has no
      group. Wherever it does not raise it agrees with `Bindings.ClassifyAnchoredFrom`, and it raises
      only where that gives `TRANS`. */
  function GroupLabelFrom(code: string, k: nat): (r: Option<string>)
    requires k <= |Bindings.Patterns|
    ensures r.Some? ==> r.value == Bindings.ClassifyAnchoredFrom(code, k)
    ensures r.None? ==> Bindings.ClassifyAnchoredFrom(code, k) == "TRANS"
    decreases |Bindings.Patterns| - k
  {
    if k == |Bindings.Patterns| then Some("?")
    else
      match Bindings.MatchFrom(code, 0, Bindings.Patterns[k].elems)
      case Some(b) =>
        if Bindings.Patterns[k].capture.None? then None
        else Some(Bindings.Apply(Bindings.Patterns[k].fn, Bindings.Captured(code, b, Bindings.Patterns[k])))
      case None => GroupLabelFrom(code, k + 1)
  }

  function GroupLabel(code: string): Option<string>
  {
    GroupLabelFrom(code, 0)
  }

  /** The labels of a line's pieces as written, with `lookup` giving each fragment's label or `None`
      where it raises: `None` as soon as one of them raises. The program passes `GroupLabel`. */
  function LabelsAsWritten(ps: seq<string>, lookup: string -> Option<string>): Option<seq<string>>
  {
    if ps == [] then Some([])
    else
      match LabelsAsWritten(ps[..|ps| - 1], lookup)
      case None => None
      case Some(ls) =>
        match lookup("&" + ps[|ps| - 1])
        case None => None
        case Some(l) => Some(ls + [l])
  }

  /** `lookup` gives `classify`'s label wherever it does not raise. */
  ghost predicate Refines(lookup: string -> Option<string>, classify: string -> string)
  {
    forall c :: lookup(c).Some? ==> lookup(c).value == classify(c)
  }

  /** The pieces of a line raise exactly when one of them does. */
  lemma {:induction false} LabelsAsWrittenRaise(ps: seq<string>, lookup: string -> Option<string>)
    ensures LabelsAsWritten(ps, lookup).Some? <==> forall i :: 0 <= i < |ps| ==> lookup("&" + ps[i]).Some?
    decreases |ps|
  {
    if ps != [] {
      var front, last := ps[..|ps| - 1], ps[|ps| - 1];
      LabelsAsWrittenRaise(front, lookup);
      assert forall i :: 0 <= i < |front| ==> front[i] == ps[i];
      if LabelsAsWritten(ps, lookup).None? && LabelsAsWritten(front, lookup).None? {
        var i :| 0 <= i < |front| && lookup("&" + front[i]).None?;
        assert lookup("&" + ps[i]).None?;
      }
    }
  }

  /** When no piece raises, they get the labels `classify` gives. */
  lemma {:induction false} LabelsAsWrittenAgree(ps: seq<string>, lookup: string -> Option<string>, classify: string -> string)
    requires Refines(lookup, classify)
    ensures LabelsAsWritten(ps, lookup).Some? ==> LabelsAsWritten(ps, lookup).value == Keymap.Labels(ps, classify)
    decreases |ps|
  {
    if ps != [] && LabelsAsWritten(ps, lookup).Some? {
      var front, last := ps[..|ps| - 1], ps[|ps| - 1];
      LabelsAsWrittenAgree(front, lookup, classify);
      var ls := LabelsAsWritten(front, lookup).value;
      var l := lookup("&" + last).value;
      assert LabelsAsWritten(ps, lookup).value == ls + [l];
      assert l == classify("&" + last);
      assert front + [last] == ps;
      Keymap.LabelsAppend(front, [last], classify);
      Keymap.LabelsOne(last, classify);
    }
  }

  /** The loop body as written; `None` once it has raised. */
  function PyStepAsWritten(st: LegacyMain.MacroState, line: string, lookup: string -> Option<string>): Option<LegacyMain.MacroState>
  {
    if Contains(line, "bindings = <") then Some(st.(inBindings := true))
    else if Contains(line, ">;") then Some(st.(inBindings := false))
    else if !st.inBindings || Trim(line) == [] then Some(st)
    else
      match LabelsAsWritten(Keymap.Pieces(Split(line, '&')), lookup)
      case None => None
      case Some(ls) => Some(st.(keymap := st.keymap + ls))
  }

  function PyRunAsWritten(lines: seq<string>, n: nat, lookup: string -> Option<string>): Option<LegacyMain.MacroState>
    requires n <= |lines|
  {
    if n == 0 then Some(LegacyMain.MacroState([], false))
    else
      match PyRunAsWritten(lines, n - 1, lookup)
      case None => None
      case Some(st) => PyStepAsWritten(st, lines[n - 1], lookup)
  }

  /** `parse_keymap_macro` as written: the labels, or `None` when it raises `IndexError`. */
  function PyKeymapAsWritten(text: string): Option<seq<string>>
  {
    var lines := Split(text, '\n');
    match PyRunAsWritten(lines, |lines|, GroupLabel)
    case None => None
    case Some(st) => Some(st.keymap)
  }

  /** Whenever the run as written gets through a line, it is in the state the corrected reading
      reaches. */
  lemma {:induction false} RunAsWrittenAgrees(lines: seq<string>, n: nat, lookup: string -> Option<string>,
                                              classify: string -> string)
    requires n <= |lines| && Refines(lookup, classify)
    ensures PyRunAsWritten(lines, n, lookup).Some? ==> PyRunAsWritten(lines, n, lookup).value == PyRun(lines, n, classify)
    decreases n
  {
    if n > 0 {
      RunAsWrittenAgrees(lines, n - 1, lookup, classify);
      LabelsAsWrittenAgree(Keymap.Pieces(Split(lines[n - 1], '&')), lookup, classify);
    }
  }

  /** Whenever the program as written returns, it returns what the corrected reading gives. */
  lemma {:induction false} AsWrittenAgrees(text: string)
    ensures PyKeymapAsWritten(text).Some? ==> PyKeymapAsWritten(text).value == PyKeymap(text, Bindings.ClassifyAnchored)
  {
    var lines := Split(text, '\n');
    assert Refines(GroupLabel, Bindings.ClassifyAnchored);
    RunAsWrittenAgrees(lines, |lines|, GroupLabel, Bindings.ClassifyAnchored);
  }

  /** `&trans` is the only pattern without a group: on a `&trans...` fragment the lookup as written
      raises, while the corrected lookup (and the JavaScript copies) give `TRANS`. */
  lemma {:induction false} TransRaises(rest: string)
    requires Bindings.IsFragment("&trans" + rest)
    ensures GroupLabel("&trans" + rest).None?
    ensures Bindings.ClassifyAnchored("&trans" + rest) == "TRANS"
    ensures Bindings.Classify("&trans" + rest) == "TRANS"
  {
    var code := "&trans" + rest;
    Bindings.ClassifyTrans(rest);
    Bindings.ClassifyAgree(code);
    assert code[1] == 't' && code[2] == 'r';
    AnchoredMiss(code, 0, 1);
    AnchoredMiss(code, 1, 1);
    AnchoredMiss(code, 2, 1);
    AnchoredMiss(code, 3, 2);
    AnchoredMiss(code, 4, 1);
    TransMatched(rest);
  }

  /** `&trans` is the pattern without a group, so reaching it raises. */
  lemma {:induction false} TransMatched(rest: string)
    ensures GroupLabelFrom("&trans" + rest, 5).None?
  {
    var code := "&trans" + rest;
    Bindings.PrefixOccurs("&trans", rest);
    Bindings.MatchCons(code, 0, Bindings.Lit("&trans"), [], 6, [6]);
    assert [Bindings.Lit("&trans")] + [] == Bindings.Trans.elems;
  }

  /** A pattern whose literal differs from a fragment at index `i` does not match at its start. */
  lemma {:induction false} AnchoredMiss(code: string, k: nat, i: nat)
    requires k < |Bindings.Patterns| && Bindings.IsFragment(code)
    requires Bindings.Patterns[k].elems[0].Lit? && i < |Bindings.Patterns[k].elems[0].text| && i < |code|
    requires code[i] != Bindings.Patterns[k].elems[0].text[i]
    ensures Bindings.MatchFrom(code, 0, Bindings.Patterns[k].elems).None?
  {
    Bindings.NotStartsWith(code, Bindings.Patterns[k].elems[0].text, i);
    Bindings.LiteralMismatch(code, Bindings.Patterns[k]);
    Bindings.SearchIsAnchored(code, Bindings.Patterns[k]);
  }

  /** A text that holds no character of `sub`'s first does not contain `sub`. */
  lemma {:induction false} NotContainsFirst(s: string, sub: string)
    requires sub != [] && sub[0] !in s
    ensures !Contains(s, sub)
    decreases |s|
  {
    if s != [] {
      assert s[0] in s;
      assert forall c :: c in s[1..] ==> c in s;
      NotContainsFirst(s[1..], sub);
    }
  }

  /** A text shorter than `sub` does not contain it. */
  lemma {:induction false} NotContainsShorter(s: string, sub: string)
    requires |s| < |sub|
    ensures !Contains(s, sub)
    decreases |s|
  {
    if s != [] {
      NotContainsShorter(s[1..], sub);
    }
  }

  /** The smallest keymap that shows the difference: a bindings block holding `&trans`. */
  const TransBlock: string := "bindings = <" + "\n" + "&trans" + "\n" + ">;"

  /** The block has three lines. */
  lemma {:induction false} TransBlockLines()
    ensures Split(TransBlock, '\n') == ["bindings = <", "&trans", ">;"]
  {
    var open, body, close := "bindings = <", "&trans", ">;";
    SplitOf(close, '\n', [close]);
    SplitCons(body, '\n', close);
    assert body + "\n" + close == body + ['\n'] + close;
    SplitCons(open, '\n', body + "\n" + close);
    assert TransBlock == open + ['\n'] + (body + "\n" + close);
  }

  lemma {:induction false} TransLineSplit()
    ensures Split("&trans", '&') == [[], "trans"]
  {
    SplitOf("trans", '&', ["trans"]);
    SplitCons([], '&', "trans");
    assert "&trans" == [] + ['&'] + "trans";
  }

  /** The middle line is one piece, `trans`. */
  lemma {:induction false} TransLinePieces()
    ensures Keymap.Pieces(Split("&trans", '&')) == ["trans"]
  {
    TransLineSplit();
    TrimNoSpace([]);
    TrimNoSpace("trans");
    Keymap.PiecesSnoc([[]], "trans");
    assert [[]] + ["trans"] == [[], "trans"];
  }

  /** The middle line holds neither marker and is not blank. */
  lemma {:induction false} TransLineKind()
    ensures !Contains("&trans", "bindings = <") && !Contains("&trans", ">;") && Trim("&trans") != []
  {
    TrimNoSpace("&trans");
    NotContainsShorter("&trans", "bindings = <");
    NotContainsFirst("&trans", ">;");
  }

  /** A single piece that raises makes its line raise. */
  lemma {:induction false} OnePieceRaises(x: string, lookup: string -> Option<string>)
    requires lookup("&" + x).None?
    ensures LabelsAsWritten([x], lookup).None?
  {
    assert [x][..0] == [];
  }

  /** A line inside a block that holds no marker, is not blank and is one piece whose lookup raises,
      raises. */
  lemma {:induction false} OnePieceLineRaises(st: LegacyMain.MacroState, line: string, p: string,
                                              lookup: string -> Option<string>)
    requires st.inBindings && !Contains(line, "bindings = <") && !Contains(line, ">;") && Trim(line) != []
    requires Keymap.Pieces(Split(line, '&')) == [p] && lookup("&" + p).None?
    ensures PyStepAsWritten(st, line, lookup).None?
  {
    OnePieceRaises(p, lookup);
  }

  /** The same line, read with a lookup that cannot raise, appends that piece's label. */
  lemma {:induction false} OnePieceLine(st: LegacyMain.MacroState, line: string, p: string, classify: string -> string)
    requires st.inBindings && !Contains(line, "bindings = <") && !Contains(line, ">;") && Trim(line) != []
    requires Keymap.Pieces(Split(line, '&')) == [p]
    ensures PyStep(st, line, classify) == st.(keymap := st.keymap + [classify("&" + p)])
  {
    Keymap.LabelsOne(p, classify);
  }

  /** A block of three lines (an opening marker, one `&`-piece whose lookup raises, a closing marker)
      makes the run as written raise, while the run with `classify` gives that piece's label. */
  lemma {:induction false} RaisingBlock(lines: seq<string>, p: string, lookup: string -> Option<string>,
                                        classify: string -> string)
    requires |lines| == 3 && Contains(lines[0], "bindings = <")
    requires !Contains(lines[1], "bindings = <") && !Contains(lines[1], ">;") && Trim(lines[1]) != []
    requires Keymap.Pieces(Split(lines[1], '&')) == [p] && lookup("&" + p).None?
    requires !Contains(lines[2], "bindings = <") && Contains(lines[2], ">;")
    ensures PyRunAsWritten(lines, 3, lookup).None?
    ensures PyRun(lines, 3, classify).keymap == [classify("&" + p)]
  {
    var st1 := LegacyMain.MacroState([], true);
    assert PyRunAsWritten(lines, 1, lookup) == Some(st1);
    assert PyRun(lines, 1, classify) == st1;
    OnePieceLineRaises(st1, lines[1], p, lookup);
    OnePieceLine(st1, lines[1], p, classify);
    assert PyRunAsWritten(lines, 2, lookup).None?;
    assert PyRun(lines, 2, classify) == LegacyMain.MacroState([classify("&" + p)], true);
  }

  /** The lines of `TransBlock` meet the conditions of `RaisingBlock`, with the one piece `trans`. */
  lemma {:induction false} TransBlockShape()
    ensures var lines := Split(TransBlock, '\n');
            && |lines| == 3 && Contains(lines[0], "bindings = <")
            && !Contains(lines[1], "bindings = <") && !Contains(lines[1], ">;") && Trim(lines[1]) != []
            && Keymap.Pieces(Split(lines[1], '&')) == ["trans"]
            && !Contains(lines[2], "bindings = <") && Contains(lines[2], ">;")
  {
    TransBlockLines();
    TransLinePieces();
    TransLineKind();
    assert StartsWith("bindings = <", "bindings = <");
    NotContainsShorter(">;", "bindings = <");
    assert StartsWith(">;", ">;");
  }

  /** The fragment `&trans` raises as written and is `TRANS` once corrected. */
  lemma {:induction false} TransFragment(code: string)
    requires code == "&" + "trans"
    ensures GroupLabel(code).None? && Bindings.ClassifyAnchored(code) == "TRANS"
  {
    assert code == "&trans" + [];
    TransRaises([]);
  }

  /** On `TransBlock` the program as written raises, while the corrected reading gives the one label
      `TRANS`. */
  lemma {:induction false} TransBlockRaises()
    ensures PyKeymapAsWritten(TransBlock).None?
    ensures PyKeymap(TransBlock, Bindings.ClassifyAnchored) == ["TRANS"]
  {
    TransBlockShape();
    TransFragment("&" + "trans");
    RaisingBlock(Split(TransBlock, '\n'), "trans", GroupLabel, Bindings.ClassifyAnchored);
  }
}
