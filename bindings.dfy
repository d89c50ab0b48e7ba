/** The binding patterns shared by the three keymap parsers (js/keyboard.js:177-184, main.js:41-48,
    streamlit_app.py:39-46): `&kp X`, `&lt N X`, `&mt M X`, `&toJIS N X`, `&mF<n>` and `&trans`, tried in
    that order on one binding fragment.

    Each pattern is a literal followed by runs of `\s+`, `\d+` or `\S+`. Every run except the last is
    followed by an element whose first character lies outside the run's class, so a backtracking matcher
    can never profit from giving characters back: reading every run to its end, as `MatchFrom` does,
    finds the match the regular-expression engine reports, and the same capture. */
module Bindings {
  import opened Text

  /** One element of a pattern: a literal, `\s+`, `\d+` or `\S+`. */
  datatype Elem = Lit(text: string) | Spaces | Digits | NonSpaces

  /** What the pattern's callback makes of the captured group. */
  datatype Transform = Same | FPrefix | Const(text: string)

  /** `capture` is the index of the element in the capturing group, `None` for a pattern without one. */
  datatype Pattern = Pattern(elems: seq<Elem>, capture: Option<nat>, fn: Transform)

  /** The class a run element repeats. */
  function ClassOf(e: Elem): CharClass
    requires !e.Lit?
  {
    match e
    case Spaces => SpaceClass
    case Digits => DigitClass
    case NonSpaces => NonSpaceClass
  }

  predicate InClass(e: Elem, c: char)
  {
    !e.Lit? && InCharClass(ClassOf(e), c)
  }

  /** The literal `t` appears in `s` at index `i`. */
  predicate OccursAt(s: string, i: nat, t: string)
  {
    i + |t| <= |s| && forall k :: 0 <= k < |t| ==> s[i + k] == t[k]
  }

  /** The end of element `e` matched at index `i`: a literal must appear there; a run takes every
      character of its class and must take at least one. */
  function ElemAt(s: string, i: nat, e: Elem): (r: Option<nat>)
    requires i <= |s|
    ensures r.Some? ==> i <= r.value <= |s|
    ensures r.Some? && e.Lit? ==> r.value == i + |e.text| && OccursAt(s, i, e.text)
    ensures r.Some? && !e.Lit? ==> i < r.value && (forall k :: i <= k < r.value ==> InClass(e, s[k]))
                                   && (r.value == |s| || !InClass(e, s[r.value]))
  {
    match e
    case Lit(t) => if OccursAt(s, i, t) then Some(i + |t|) else None
    case _ =>
      var j := Span(s, i, ClassOf(e));
      if j == i then None else Some(j)
  }

  /** Boundaries never go back. */
  predicate Ascending(b: seq<nat>)
  {
    forall k, l :: 0 <= k <= l < |b| ==> b[k] <= b[l]
  }

  /** The boundaries of a match of `elems` starting at index `i`: `b[k]..b[k+1]` is what element `k`
      matched. */
  function MatchFrom(s: string, i: nat, elems: seq<Elem>): (b: Option<seq<nat>>)
    requires i <= |s|
    ensures b.Some? ==> |b.value| == |elems| + 1 && b.value[0] == i
    ensures b.Some? ==> forall k :: 0 <= k < |b.value| ==> i <= b.value[k] <= |s|
    ensures b.Some? ==> Ascending(b.value)
    decreases |elems|
  {
    if elems == [] then Some([i])
    else
      match ElemAt(s, i, elems[0])
      case None => None
      case Some(j) =>
        match MatchFrom(s, j, elems[1..])
        case None => None
        case Some(rest) => Some([i] + rest)
  }

  /** The captured text of a match, or "" for a pattern without a group. The boundaries of a match
      always pass the test on them. */
  function Captured(s: string, b: seq<nat>, p: Pattern): string
  {
    match p.capture
    case Some(k) => if k + 1 < |b| && b[k] <= b[k + 1] <= |s| then s[b[k]..b[k + 1]] else []
    case None => []
  }

  /** `String.prototype.match` with a non-global pattern: the leftmost index where the pattern matches,
      searched from `i` on. */
  function SearchFrom(s: string, i: nat, elems: seq<Elem>): (r: Option<seq<nat>>)
    requires i <= |s|
    ensures r.Some? ==> |r.value| == |elems| + 1 && forall k :: 0 <= k < |r.value| ==> i <= r.value[k] <= |s|
    ensures r.Some? ==> Ascending(r.value)
    ensures r.Some? ==> MatchFrom(s, r.value[0], elems) == r
    ensures r.Some? ==> forall j :: i <= j < r.value[0] ==> MatchFrom(s, j, elems).None?
    decreases |s| - i
  {
    match MatchFrom(s, i, elems)
    case Some(b) => Some(b)
    case None => if i == |s| then None else SearchFrom(s, i + 1, elems)
  }

  function Apply(fn: Transform, group: string): string
  {
    match fn
    case Same => group
    case FPrefix => "F" + group
    case Const(t) => t
  }

  const Kp := Pattern([Lit("&kp"), Spaces, NonSpaces], Some(2), Same)
  const Lt := Pattern([Lit("&lt"), Spaces, Digits, Spaces, NonSpaces], Some(4), Same)
  const Mt := Pattern([Lit("&mt"), Spaces, NonSpaces, Spaces, NonSpaces], Some(4), Same)
  const ToJis := Pattern([Lit("&toJIS"), Spaces, Digits, Spaces, NonSpaces], Some(4), Same)
  const MacroF := Pattern([Lit("&mF"), Digits], Some(1), FPrefix)
  const Trans := Pattern([Lit("&trans")], None, Const("TRANS"))

  /** The `patterns` list, in the order it is tried. */
  const Patterns: seq<Pattern> := [Kp, Lt, Mt, ToJis, MacroF, Trans]

  /** The label of the first pattern, from index `k` of `Patterns` on, that `code.match` finds anywhere in
      `code`; `?` when none does (the JavaScript copies). */
  function ClassifyFrom(code: string, k: nat): (name: string)
    requires k <= |Patterns|
    decreases |Patterns| - k
  {
    if k == |Patterns| then "?"
    else
      match SearchFrom(code, 0, Patterns[k].elems)
      case Some(b) => Apply(Patterns[k].fn, Captured(code, b, Patterns[k]))
      case None => ClassifyFrom(code, k + 1)
  }

  /** The label one binding fragment contributes (js/keyboard.js:218-226, main.js:58-67). */
  function Classify(code: string): string
  {
    ClassifyFrom(code, 0)
  }

  /** The same choice with `re.match`, which only tries index 0 (streamlit_app.py:64-73), and with the
      group read the same way for every pattern. */
  function ClassifyAnchoredFrom(code: string, k: nat): (name: string)
    requires k <= |Patterns|
    decreases |Patterns| - k
  {
    if k == |Patterns| then "?"
    else
      match MatchFrom(code, 0, Patterns[k].elems)
      case Some(b) => Apply(Patterns[k].fn, Captured(code, b, Patterns[k]))
      case None => ClassifyAnchoredFrom(code, k + 1)
  }

  function ClassifyAnchored(code: string): string
  {
    ClassifyAnchoredFrom(code, 0)
  }

  /** A binding fragment as the parsers build it: `&` followed by one piece of `line.split('&')`. */
  predicate IsFragment(code: string)
  {
    |code| >= 1 && code[0] == '&' && forall k :: 1 <= k < |code| ==> code[k] != '&'
  }

  /** Every pattern starts with `&`, so on a fragment a match can only start at index 0. */
  lemma {:induction false} OnlyAtStart(code: string, p: Pattern, i: nat)
    requires p in Patterns && IsFragment(code) && 0 < i <= |code|
    ensures MatchFrom(code, i, p.elems).None?
  {
    var t := p.elems[0].text;
    assert t[0] == '&';
  }

  /** On a fragment, the search of `match` and the anchored `re.match` agree. */
  lemma {:induction false} SearchIsAnchored(code: string, p: Pattern)
    requires p in Patterns && IsFragment(code)
    ensures SearchFrom(code, 0, p.elems) == MatchFrom(code, 0, p.elems)
  {
    if MatchFrom(code, 0, p.elems).None? {
      SearchNone(code, 1, p);
    }
  }

  lemma {:induction false} SearchNone(code: string, i: nat, p: Pattern)
    requires p in Patterns && IsFragment(code) && 0 < i <= |code|
    ensures SearchFrom(code, i, p.elems).None?
    decreases |code| - i
  {
    OnlyAtStart(code, p, i);
    if i < |code| {
      SearchNone(code, i + 1, p);
    }
  }

  lemma {:induction false} ClassifyAgreeFrom(code: string, k: nat)
    requires IsFragment(code) && k <= |Patterns|
    ensures ClassifyFrom(code, k) == ClassifyAnchoredFrom(code, k)
    decreases |Patterns| - k
  {
    if k < |Patterns| {
      SearchIsAnchored(code, Patterns[k]);
      ClassifyAgreeFrom(code, k + 1);
    }
  }

  /** The JavaScript copies (unanchored `match`) and the Python copy (anchored `re.match`) give every
      binding fragment the same label. */
  lemma {:induction false} ClassifyAgree(code: string)
    requires IsFragment(code)
    ensures Classify(code) == ClassifyAnchored(code)
  {
    ClassifyAgreeFrom(code, 0);
  }

  lemma {:induction false} ClassifySkip(code: string, k: nat)
    requires k < |Patterns| && SearchFrom(code, 0, Patterns[k].elems).None?
    ensures ClassifyFrom(code, k) == ClassifyFrom(code, k + 1)
  {
  }

  lemma {:induction false} ClassifyHit(code: string, k: nat, b: seq<nat>)
    requires k < |Patterns| && SearchFrom(code, 0, Patterns[k].elems) == Some(b)
    ensures ClassifyFrom(code, k) == Apply(Patterns[k].fn, Captured(code, b, Patterns[k]))
  {
  }

  /** `&kp X` matches all of the fragment, and its group is `X`. */
  lemma {:induction false} KpMatch(x: string)
    requires x != [] && NoSpace(x)
    ensures var m := MatchFrom("&kp " + x, 0, Kp.elems);
            m.Some? && m.value[2] == 4 && m.value[3] == |x| + 4
  {
    var code := "&kp " + x;
    assert ElemAt(code, 4, NonSpaces) == Some(|code|) by {
      RunAtEnd("&kp ", x, NonSpaces);
    }
    assert ElemAt(code, 3, Spaces) == Some(4) by {
      assert code[3] == ' ' && code[4] == x[0];
    }
    assert ElemAt(code, 0, Lit("&kp")) == Some(3) by {
      assert code[0] == '&' && code[1] == 'k' && code[2] == 'p';
    }
    MatchTriple(code, Lit("&kp"), Spaces, NonSpaces, 3, 4);
  }

  /** `&kp X` names the key `X`. */
  lemma {:induction false} ClassifyKp(x: string)
    requires x != [] && NoSpace(x)
    ensures Classify("&kp " + x) == x
  {
    var code := "&kp " + x;
    KpMatch(x);
    var b := MatchFrom(code, 0, Kp.elems).value;
    assert SearchFrom(code, 0, Kp.elems) == Some(b);
    ClassifyHit(code, 0, b);
    assert code[4..] == x;
  }

  lemma {:induction false} NotStartsWith(s: string, t: string, k: nat)
    requires k < |t| && k < |s| && s[k] != t[k]
    ensures !OccursAt(s, 0, t)
  {
  }

  /** A pattern whose literal does not start an `&`-free fragment never matches it. */
  lemma {:induction false} LiteralMismatch(code: string, p: Pattern)
    requires p in Patterns && IsFragment(code) && !OccursAt(code, 0, p.elems[0].text)
    ensures SearchFrom(code, 0, p.elems).None?
  {
    SearchIsAnchored(code, p);
  }

  /** A match of `[e] + rest` at `i` is a match of `e` followed by a match of `rest`. */
  lemma {:induction false} MatchCons(s: string, i: nat, e: Elem, rest: seq<Elem>, j: nat, b: seq<nat>)
    requires i <= |s| && ElemAt(s, i, e) == Some(j) && MatchFrom(s, j, rest) == Some(b)
    ensures MatchFrom(s, i, [e] + rest) == Some([i] + b)
  {
    assert ([e] + rest)[1..] == rest;
  }

  /** A run whose characters reach the end of the string matches all of them. */
  lemma {:induction false} RunToEnd(s: string, i: nat, e: Elem)
    requires !e.Lit? && i < |s| && forall k :: i <= k < |s| ==> InClass(e, s[k])
    ensures ElemAt(s, i, e) == Some(|s|)
  {
  }

  /** A three-element pattern matches the whole string when each element starts where the one before
      it ends and the last runs to the end. */
  lemma {:induction false} MatchTriple(s: string, e0: Elem, e1: Elem, e2: Elem, j1: nat, j2: nat)
    requires ElemAt(s, 0, e0) == Some(j1) && j1 <= |s| && ElemAt(s, j1, e1) == Some(j2)
    requires j2 <= |s| && ElemAt(s, j2, e2) == Some(|s|)
    ensures MatchFrom(s, 0, [e0, e1, e2]) == Some([0, j1, j2, |s|])
  {
    MatchPair(s, j1, e1, e2, j2);
    MatchCons(s, 0, e0, [e1, e2], j1, [j1, j2, |s|]);
    assert [e0] + [e1, e2] == [e0, e1, e2] && [0] + [j1, j2, |s|] == [0, j1, j2, |s|];
  }

  lemma {:induction false} PrefixOccurs(t: string, u: string)
    ensures OccursAt(t + u, 0, t)
  {
  }

  /** A run over the whole of a non-empty tail matches that tail. */
  lemma {:induction false} RunAtEnd(p: string, x: string, e: Elem)
    requires !e.Lit? && x != [] && forall k :: 0 <= k < |x| ==> InClass(e, x[k])
    ensures ElemAt(p + x, |p|, e) == Some(|p + x|)
  {
    assert forall k :: |p| <= k < |p + x| ==> (p + x)[k] == x[k - |p|];
    RunToEnd(p + x, |p|, e);
  }


  /** A two-element pattern matches up to the end of the string when its second element starts where
      the first one ends and runs to the end. */
  lemma {:induction false} MatchPair(s: string, i: nat, e0: Elem, e1: Elem, j: nat)
    requires i <= |s| && ElemAt(s, i, e0) == Some(j) && ElemAt(s, j, e1) == Some(|s|)
    ensures MatchFrom(s, i, [e0, e1]) == Some([i, j, |s|])
  {
    MatchCons(s, j, e1, [], |s|, [|s|]);
    assert [e1] + [] == [e1] && [j] + [|s|] == [j, |s|];
    MatchCons(s, i, e0, [e1], j, [j, |s|]);
    assert [e0] + [e1] == [e0, e1] && [i] + [j, |s|] == [i, j, |s|];
  }

  lemma {:induction false} MacroFMatch(d: string)
    requires d != [] && forall k :: 0 <= k < |d| ==> IsDigit(d[k])
    ensures MatchFrom("&mF" + d, 0, MacroF.elems) == Some([0, 3, |d| + 3])
  {
    var code := "&mF" + d;
    RunAtEnd("&mF", d, Digits);
    PrefixOccurs("&mF", d);
    MatchPair(code, 0, Lit("&mF"), Digits, 3);
  }

  /** A pattern whose literal differs from a fragment at index `i` is passed over. */
  lemma {:induction false} SkipAt(code: string, k: nat, i: nat)
    requires k < |Patterns| && IsFragment(code)
    requires Patterns[k].elems[0].Lit? && i < |Patterns[k].elems[0].text| && i < |code|
    requires code[i] != Patterns[k].elems[0].text[i]
    ensures ClassifyFrom(code, k) == ClassifyFrom(code, k + 1)
  {
    LiteralMismatch(code, Patterns[k]);
    ClassifySkip(code, k);
  }

  lemma {:induction false} SkipKp(code: string)
    requires IsFragment(code) && |code| > 1 && code[1] != 'k'
    ensures ClassifyFrom(code, 0) == ClassifyFrom(code, 1)
  {
    NotStartsWith(code, "&kp", 1);
    LiteralMismatch(code, Kp);
    ClassifySkip(code, 0);
  }

  lemma {:induction false} SkipLt(code: string)
    requires IsFragment(code) && |code| > 1 && code[1] != 'l'
    ensures ClassifyFrom(code, 1) == ClassifyFrom(code, 2)
  {
    SkipAt(code, 1, 1);
  }

  lemma {:induction false} SkipMt(code: string)
    requires IsFragment(code) && |code| > 2 && code[2] != 't'
    ensures ClassifyFrom(code, 2) == ClassifyFrom(code, 3)
  {
    SkipAt(code, 2, 2);
  }

  lemma {:induction false} SkipToJis(code: string)
    requires IsFragment(code) && |code| > 2 && code[2] != 'o'
    ensures ClassifyFrom(code, 3) == ClassifyFrom(code, 4)
  {
    SkipAt(code, 3, 2);
  }

  lemma {:induction false} SkipMacroF(code: string)
    requires IsFragment(code) && |code| > 1 && code[1] != 'm'
    ensures ClassifyFrom(code, 4) == ClassifyFrom(code, 5)
  {
    SkipAt(code, 4, 1);
  }

  lemma {:induction false} MacroFSkips(d: string)
    requires IsFragment("&mF" + d)
    ensures ClassifyFrom("&mF" + d, 0) == ClassifyFrom("&mF" + d, 4)
  {
    var code := "&mF" + d;
    assert code[1] == 'm' && code[2] == 'F';
    SkipKp(code);
    SkipLt(code);
    SkipMt(code);
    SkipToJis(code);
  }

  /** `&mF<n>` names the function key `F<n>`. */
  lemma {:induction false} ClassifyMacroF(d: string)
    requires d != [] && forall k :: 0 <= k < |d| ==> IsDigit(d[k])
    ensures Classify("&mF" + d) == "F" + d
  {
    var code := "&mF" + d;
    assert forall k :: 1 <= k < |code| ==> code[k] != '&' by {
      assert forall k :: 3 <= k < |code| ==> code[k] == d[k - 3];
    }
    MacroFSkips(d);
    MacroFMatch(d);
    SearchIsAnchored(code, MacroF);
    ClassifyHit(code, 4, [0, 3, |code|]);
    assert code[3..] == d;
  }

  lemma {:induction false} TransSkips(code: string)
    requires IsFragment(code) && |code| > 2 && code[1] == 't' && code[2] == 'r'
    ensures ClassifyFrom(code, 0) == ClassifyFrom(code, 5)
  {
    SkipKp(code);
    SkipLt(code);
    SkipMt(code);
    SkipToJis(code);
    SkipMacroF(code);
  }

  /** A fragment starting with `&trans` (and so `&transparent` too) is the transparent binding. */
  lemma {:induction false} ClassifyTrans(rest: string)
    requires IsFragment("&trans" + rest)
    ensures Classify("&trans" + rest) == "TRANS"
  {
    var code := "&trans" + rest;
    assert code[1] == 't' && code[2] == 'r';
    TransSkips(code);
    PrefixOccurs("&trans", rest);
    MatchCons(code, 0, Lit("&trans"), [], 6, [6]);
    assert [Lit("&trans")] + [] == Trans.elems && [0] + [6] == [0, 6];
    SearchIsAnchored(code, Trans);
    ClassifyHit(code, 5, [0, 6]);
  }

  /** A fragment no pattern matches at its start is drawn as `?`. */
  lemma {:induction false} ClassifyUnknown(code: string)
    requires IsFragment(code)
    requires forall p :: p in Patterns ==> MatchFrom(code, 0, p.elems).None?
    ensures Classify(code) == "?"
  {
    ClassifyAgree(code);
  }

  /** The `for ... of patterns` loop of one fragment: try each pattern in turn and stop at the first one
      that matches. */
  method FirstMatch(code: string) returns (key: string)
    ensures key == Classify(code)
  {
    var k := 0;
    while k < |Patterns|
      invariant k <= |Patterns|
      invariant ClassifyFrom(code, k) == Classify(code)
    {
      var m := SearchFrom(code, 0, Patterns[k].elems);
      if m.Some? {
        return Apply(Patterns[k].fn, Captured(code, m.value, Patterns[k]));
      }
      k := k + 1;
    }
    return "?";
  }
}
