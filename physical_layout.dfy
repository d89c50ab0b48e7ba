/** The physical-layout half of js/keyboard.js: `parseJsonLayout`, which dispatches between a KLE-style
    JSON document and the ZMK devicetree `&key_physical_attrs` dialect, and `parseZmkPhysicalLayout`. */
module PhysicalLayout {
  import opened Text

  /** One key as the parsers hand it to the renderer: position, size and rotation pivot in hundredths of a
      key unit, rotation `r` in degrees. */
  datatype KeyGeometry = KeyGeometry(x: real, y: real, w: real, h: real, r: real, rx: real, ry: real)

  // ---------------------------------------------------------------------------------------------------
  // The JSON path. `JSON.parse` is not modelled: its result is an input, reduced to what the code reads.
  // ---------------------------------------------------------------------------------------------------

  /** One element of a `layout` array: each numeric field present or absent. */
  datatype KeyJson = KeyJson(x: Option<real>, y: Option<real>, w: Option<real>, h: Option<real>,
                             r: Option<real>, rx: Option<real>, ry: Option<real>)

  /** The value under one name of `layouts`, reduced to its `layout` property: `None` when that property is
      absent, falsy or not an array; an element `None` stands for a JSON `null` in the array. */
  datatype LayoutEntry = LayoutEntry(layout: Option<seq<Option<KeyJson>>>)

  /** What `JSON.parse(text)` gives: an exception, or a value whose `layouts` property is absent or falsy
      (`None`) or holds named entries in the order `Object.keys` lists them. A name may repeat, as in the
      JSON text; property lookup then sees the last value, as `JSON.parse` keeps it. */
  datatype JsonDoc = Malformed | Parsed(layouts: Option<seq<(string, LayoutEntry)>>)

  const PhysicalLayoutMarker: string := "compatible = \"zmk,physical-layout\""
  const KeymapMarker: string := "compatible = \"zmk,keymap\""

  /** `v || d` for a JSON number: an absent field and a 0 both give the default. */
  function OrDefault(v: Option<real>, d: real): real
  {
    if v.Some? && v.value != 0.0 then v.value else d
  }

  /** The mapping applied to each element of the first layout. */
  function JsonKey(k: KeyJson): KeyGeometry
  {
    KeyGeometry(OrDefault(k.x, 0.0) * 100.0, OrDefault(k.y, 0.0) * 100.0,
                OrDefault(k.w, 1.0) * 100.0, OrDefault(k.h, 1.0) * 100.0,
                OrDefault(k.r, 0.0),
                OrDefault(k.rx, 0.0) * 100.0, OrDefault(k.ry, 0.0) * 100.0)
  }

  /** `layouts[name]`: the last entry bearing that name. */
  function Lookup(entries: seq<(string, LayoutEntry)>, name: string): (r: Option<LayoutEntry>)
    ensures r.Some? <==> exists i :: 0 <= i < |entries| && entries[i].0 == name
    ensures r.Some? ==> exists i :: 0 <= i < |entries| && entries[i] == (name, r.value)
                                     && forall j :: i < j < |entries| ==> entries[j].0 != name
  {
    if entries == [] then None
    else if entries[|entries| - 1].0 == name then Some(entries[|entries| - 1].1)
    else Lookup(entries[..|entries| - 1], name)
  }

  predicate HasNull(elements: seq<Option<KeyJson>>)
  {
    exists i :: 0 <= i < |elements| && elements[i].None?
  }

  /** The JSON path (js/keyboard.js:109-130): the first name's `layout` array, mapped element by element;
      anything the code would throw on gives the empty layout, as the `catch` does. */
  function JsonLayout(json: JsonDoc): seq<KeyGeometry>
  {
    match json
    case Malformed => []
    case Parsed(None) => []
    case Parsed(Some(entries)) =>
      if entries == [] || entries[0].0 == [] then []
      else
        match Lookup(entries, entries[0].0)
        case None => []
        case Some(entry) =>
          match entry.layout
          case None => []
          case Some(elements) =>
            if HasNull(elements) then [] else seq(|elements|, i requires 0 <= i < |elements| => JsonKey(elements[i].value))
  }

  predicate HasZmkMarker(text: string)
  {
    Contains(text, PhysicalLayoutMarker) || Contains(text, KeymapMarker)
  }

  /** `parseJsonLayout(text)`. `block` is the first match of the layout-block pattern of line 143 in `text`
      (`None` when there is none) and `json` is what `JSON.parse(text)` gives. */
  function ParseJsonLayout(text: string, block: Option<string>, json: JsonDoc): (keys: seq<KeyGeometry>)
    ensures text == [] ==> keys == []
    ensures text != [] && HasZmkMarker(text) ==> keys == ZmkPhysicalLayout(block)
    ensures text != [] && !HasZmkMarker(text) ==> keys == JsonLayout(json)
  {
    if text == [] then []
    else if HasZmkMarker(text) then ZmkPhysicalLayout(block)
    else JsonLayout(json)
  }

  /** Every failure of the JSON path ends in the empty layout. */
  lemma {:induction false} JsonFailures(entries: seq<(string, LayoutEntry)>)
    ensures JsonLayout(Malformed) == [] && JsonLayout(Parsed(None)) == []
    ensures JsonLayout(Parsed(Some([]))) == []
    ensures entries != [] && entries[0].0 == [] ==> JsonLayout(Parsed(Some(entries))) == []
    ensures entries != [] && Lookup(entries, entries[0].0) == Some(LayoutEntry(None))
            ==> JsonLayout(Parsed(Some(entries))) == []
  {
  }

  /** On success the JSON path keeps the first layout's length and order, scales every coordinate but `r`
      by 100 after defaulting `x, y, rx, ry` to 0 and `w, h` to 1 (a 0 counts as missing), and so never
      yields a zero width or height. */
  lemma {:induction false} JsonLayoutKeys(entries: seq<(string, LayoutEntry)>, elements: seq<Option<KeyJson>>)
    requires entries != [] && entries[0].0 != []
    requires Lookup(entries, entries[0].0) == Some(LayoutEntry(Some(elements)))
    requires !HasNull(elements)
    ensures var keys := JsonLayout(Parsed(Some(entries)));
            |keys| == |elements| &&
            forall i :: 0 <= i < |keys| ==>
              var k := elements[i].value;
              && keys[i].x == (if k.x.Some? then k.x.value * 100.0 else 0.0)
              && keys[i].y == (if k.y.Some? then k.y.value * 100.0 else 0.0)
              && keys[i].w == (if k.w.Some? && k.w.value != 0.0 then k.w.value * 100.0 else 100.0)
              && keys[i].h == (if k.h.Some? && k.h.value != 0.0 then k.h.value * 100.0 else 100.0)
              && keys[i].r == (if k.r.Some? then k.r.value else 0.0)
              && keys[i].rx == (if k.rx.Some? then k.rx.value * 100.0 else 0.0)
              && keys[i].ry == (if k.ry.Some? then k.ry.value * 100.0 else 0.0)
              && keys[i].w != 0.0 && keys[i].h != 0.0
  {
  }

  // ---------------------------------------------------------------------------------------------------
  // The devicetree path: `&key_physical_attrs W H X Y R RX RY` directives inside the layout block.
  // Every run in the directive pattern is followed by a character outside its class, so the greedy
  // matcher never backtracks into a run; the functions below read each run to its end.
  // ---------------------------------------------------------------------------------------------------

  /** The seven integers of one directive, in source order. */
  datatype Attrs = Attrs(w: int, h: int, x: int, y: int, r: int, rx: int, ry: int)

  const DirectiveTag: string := "&key_physical_attrs"

  /** `\d+` at index `i`: its value and the index after it. */
  function UnsignedAt(s: string, i: nat): (r: Option<(int, nat)>)
    requires i <= |s|
    ensures r.Some? ==> r.value.0 >= 0 && i < r.value.1 <= |s|
  {
    var j := Span(s, i, DigitClass);
    if j == i then None else Some((DigitsValue(s[i..j]), j))
  }

  /** `-?\d+`, or also `\(-\d+\)` when `parens` holds, with the parentheses dropped before the value is read. */
  function SignedAt(s: string, i: nat, parens: bool): (r: Option<(int, nat)>)
    requires i <= |s|
    ensures r.Some? ==> i < r.value.1 <= |s|
  {
    if i < |s| && s[i] == '-' then
      match UnsignedAt(s, i + 1)
      case None => None
      case Some((n, j)) => Some((-n, j))
    else if parens && i + 1 < |s| && s[i] == '(' && s[i + 1] == '-' then
      match UnsignedAt(s, i + 2)
      case None => None
      case Some((n, j)) => if j < |s| && s[j] == ')' then Some((-n, j + 1)) else None
    else UnsignedAt(s, i)
  }

  /** Fields `k..6` of a directive, each after at least one `\s`: the first two unsigned, the rest signed. */
  function FieldsAt(s: string, i: nat, k: nat, parens: bool): (r: Option<(seq<int>, nat)>)
    requires i <= |s| && k <= 7
    ensures r.Some? ==> |r.value.0| == 7 - k && i <= r.value.1 <= |s|
    decreases 7 - k
  {
    if k == 7 then Some(([], i))
    else
      var j := Span(s, i, SpaceClass);
      if j == i then None
      else
        match (if k < 2 then UnsignedAt(s, j) else SignedAt(s, j, parens))
        case None => None
        case Some((v, e)) =>
          match FieldsAt(s, e, k + 1, parens)
          case None => None
          case Some((vs, end)) => Some(([v] + vs, end))
  }

  /** The directive starting exactly at index `i`, and the index after it. */
  function DirectiveAt(s: string, i: nat, parens: bool): (r: Option<(Attrs, nat)>)
    requires i <= |s|
    ensures r.Some? ==> i < r.value.1 <= |s|
  {
    if !StartsWith(s[i..], DirectiveTag) then None
    else
      match FieldsAt(s, i + |DirectiveTag|, 0, parens)
      case None => None
      case Some((v, e)) => Some((Attrs(v[0], v[1], v[2], v[3], v[4], v[5], v[6]), e))
  }

  /** The directives a global `exec` loop finds from index `from` on: the leftmost match, then the search
      resumes after it. */
  function Directives(s: string, from: nat, parens: bool): seq<Attrs>
    requires from <= |s|
    decreases |s| - from
  {
    if from == |s| then []
    else
      match DirectiveAt(s, from, parens)
      case Some((a, e)) => [a] + Directives(s, e, parens)
      case None => Directives(s, from + 1, parens)
  }

  /** The key one directive gives: every field as written, the rotation divided by 100. */
  function AttrsKey(a: Attrs): KeyGeometry
  {
    KeyGeometry(a.x as real, a.y as real, a.w as real, a.h as real, a.r as real / 100.0, a.rx as real, a.ry as real)
  }

  predicate NoDuplicates<T(==)>(s: seq<T>)
  {
    forall i, j :: 0 <= i < j < |s| ==> s[i] != s[j]
  }

  /** Insertion into a `Set` read back with `Array.from`: each value once, at its first insertion. */
  function Dedup<T(==,!new)>(s: seq<T>): (d: seq<T>)
    ensures forall x :: x in d <==> x in s
    ensures NoDuplicates(d)
    ensures |d| <= |s|
  {
    if s == [] then []
    else
      var d := Dedup(s[..|s| - 1]);
      var x := s[|s| - 1];
      assert forall y :: y in s <==> y in s[..|s| - 1] || y == x;
      if x in d then d else d + [x]
  }

  /** The indices at which a value occurs for the first time, in increasing order. */
  function FirstIndices<T(==)>(s: seq<T>): (ix: seq<nat>)
    ensures forall k :: 0 <= k < |ix| ==> ix[k] < |s| && s[ix[k]] !in s[..ix[k]]
    ensures forall k, l :: 0 <= k < l < |ix| ==> ix[k] < ix[l]
  {
    if s == [] then []
    else
      var ix := FirstIndices(s[..|s| - 1]);
      assert forall k :: 0 <= k < |ix| ==> s[..|s| - 1][..ix[k]] == s[..ix[k]];
      if s[|s| - 1] in s[..|s| - 1] then ix else ix + [|s| - 1]
  }

  /** Output order is the order of first occurrence: the deduplicated sequence is exactly the input read at
      its first-occurrence indices. */
  lemma {:induction false} DedupKeepsFirstOccurrences<T(!new)>(s: seq<T>)
    ensures |Dedup(s)| == |FirstIndices(s)|
    ensures forall k :: 0 <= k < |Dedup(s)| ==> Dedup(s)[k] == s[FirstIndices(s)[k]]
  {
    if s != [] {
      var p := s[..|s| - 1];
      DedupKeepsFirstOccurrences(p);
      assert forall k :: 0 <= k < |FirstIndices(p)| ==> p[FirstIndices(p)[k]] == s[FirstIndices(p)[k]];
    }
  }

  /** The key of each directive, in order. */
  function Keys(found: seq<Attrs>): (keys: seq<KeyGeometry>)
    ensures |keys| == |found|
    ensures forall i :: 0 <= i < |found| ==> keys[i] == AttrsKey(found[i])
  {
    if found == [] then [] else Keys(found[..|found| - 1]) + [AttrsKey(found[|found| - 1])]
  }

  /** The devicetree path's result: no layout block gives no keys; otherwise the directives of the block,
      deduplicated on all seven values. */
  function ZmkPhysicalLayout(block: Option<string>): seq<KeyGeometry>
  {
    match block
    case None => []
    case Some(b) => Dedup(Keys(Directives(b, 0, true)))
  }

  /** A position where no directive starts contributes nothing to the scan. */
  lemma {:induction false} NoDirectiveStep(s: string, from: nat, parens: bool)
    requires from < |s| && DirectiveAt(s, from, parens).None?
    ensures Directives(s, from, parens) == Directives(s, from + 1, parens)
  {
  }

  /** A directive found at `from` is the next one reported, and the scan resumes after it. */
  lemma {:induction false} DirectiveStep(s: string, from: nat, parens: bool, a: Attrs, e: nat)
    requires from < |s| && DirectiveAt(s, from, parens) == Some((a, e))
    ensures e <= |s| && Directives(s, from, parens) == [a] + Directives(s, e, parens)
  {
  }

  lemma {:induction false} DedupSnoc<T(!new)>(s: seq<T>, x: T)
    ensures Dedup(s + [x]) == if x in Dedup(s) then Dedup(s) else Dedup(s) + [x]
  {
    assert (s + [x])[..|s|] == s;
  }

  /** One more directive adds its key to the deduplicated keys unless an equal key is already there. */
  lemma {:induction false} DedupKeysSnoc(found: seq<Attrs>, a: Attrs)
    ensures var d := Dedup(Keys(found));
            Dedup(Keys(found + [a])) == if AttrsKey(a) in d then d else d + [AttrsKey(a)]
  {
    assert Keys(found + [a]) == Keys(found) + [AttrsKey(a)];
    DedupSnoc(Keys(found), AttrsKey(a));
  }

  /** The devicetree path reports every directive's key exactly once, in the order of first occurrence,
      and nothing else. */
  lemma {:induction false} ZmkPhysicalLayoutKeys(b: string)
    ensures var keys := ZmkPhysicalLayout(Some(b));
            var found := Directives(b, 0, true);
            NoDuplicates(keys) && |keys| <= |found|
            && (forall g :: g in keys <==> exists i :: 0 <= i < |found| && g == AttrsKey(found[i]))
  {
    var found := Directives(b, 0, true);
    var ks := Keys(found);
    forall g
      ensures g in ks <==> exists i :: 0 <= i < |found| && g == AttrsKey(found[i])
    {
      if g in ks {
        var i :| 0 <= i < |ks| && ks[i] == g;
        assert g == AttrsKey(found[i]);
      }
    }
  }

  /** `parseZmkPhysicalLayout`: the `exec` loop over the block, adding each key to a set that remembers
      insertion order. */
  method ParseZmkPhysicalLayout(block: Option<string>) returns (keys: seq<KeyGeometry>)
    ensures keys == ZmkPhysicalLayout(block)
  {
    if block == None {
      return [];
    }
    var b := block.value;
    var seen: set<KeyGeometry> := {};
    keys := [];
    ghost var found: seq<Attrs> := [];
    ghost var all := Directives(b, 0, true);
    var pos := 0;
    while pos < |b|
      invariant pos <= |b|
      invariant found + Directives(b, pos, true) == all
      invariant keys == Dedup(Keys(found))
      invariant forall g :: g in seen <==> g in keys
      decreases |b| - pos
    {
      var m := DirectiveAt(b, pos, true);
      if m.Some? {
        var (a, e) := m.value;
        DirectiveStep(b, pos, true, a, e);
        ghost var rest := Directives(b, e, true);
        assert found + ([a] + rest) == (found + [a]) + rest;
        var key := AttrsKey(a);
        DedupKeysSnoc(found, a);
        if key !in seen {
          seen := seen + {key};
          keys := keys + [key];
        }
        found := found + [a];
        pos := e;
      } else {
        NoDirectiveStep(b, pos, true);
        pos := pos + 1;
      }
    }
    assert found == all;
  }
}
