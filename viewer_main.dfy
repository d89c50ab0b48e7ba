/** The keyboard half of js/main.js: the label a key event stands for, the keys whose browser default is
    suppressed, and how the key-down, key-up, blur and update-button handlers change `keyStates`, the map
    from label to pressed that `drawKeys` reads. Redrawing after each event, logging and the wiring of the
    listeners are not modelled. */
module ViewerMain {
  import opened Text
  import opened KeyLabels
  import opened Renderer

  // -----------------------------------------------------------------------------------------------------
  // mapKeyEventToLabel
  // -----------------------------------------------------------------------------------------------------

  /** The substitutions of `mapKeyEventToLabel`, applied in the order the code tests them to the
      upper-cased `key` of the event. The tests that replace a name by itself (`SHIFT`, `ALT`, `ENTER`,
      `TAB`, `BACKSPACE`, `DELETE`, `@`) change nothing and are left out. */
  function Substitute(key: string): string
  {
    var k := Replace(key, " ", "SPACE");
    var k := Replace(k, "ESCAPE", "ESC");
    var k := Replace(k, "CONTROL", "CTRL");
    var k := Replace(Replace(k, "META", "WIN"), "OS", "WIN");
    var k := Replace(k, "\\", "YEN");
    var k := Replace(Replace(k, "[", "{"), "]", "}");
    var k := Replace(Replace(k, ";", "SEMI"), ":", "COLON");
    var k := Replace(Replace(k, "'", "SQT"), ",", "COMMA");
    var k := Replace(Replace(k, ".", "DOT"), "/", "SLASH");
    var k := Replace(Replace(k, "ARROWLEFT", "LEFT"), "ARROWUP", "UP");
    Replace(Replace(k, "ARROWRIGHT", "RIGHT"), "ARROWDOWN", "DOWN")
  }

  /** One `if (key === from) key = to`. */
  function Replace(k: string, from: string, to: string): string
  {
    if k == from then to else k
  }

  /** `mapKeyEventToLabel(e)` for `e.key == key`: upper-cased, substituted and normalised. */
  function MapKeyEventToLabel(key: string): string
  {
    NormalizeKeyLabel(Substitute(ToUpper(key)))
  }

  /** The label of an event is in the normal form of the key labels, so it can equal a label `drawKeys`
      draws. */
  lemma {:induction false} MapKeyEventFixedPoint(key: string)
    ensures NormalizeKeyLabel(MapKeyEventToLabel(key)) == MapKeyEventToLabel(key)
  {
    NormalizeKeyLabelIdempotent(Substitute(ToUpper(key)));
  }

  /** Every substitution yields a non-empty name, so only an empty `key` gives the empty label, on which
      the handlers return early. */
  lemma {:induction false} EmptyLabelOnlyForEmptyKey(key: string)
    ensures MapKeyEventToLabel(key) == [] <==> key == []
  {
    var u := ToUpper(key);
    if key != [] {
      assert |Substitute(u)| > 0;
    }
  }

  /** The steps of `MapKeyEventToLabel` for one key. */
  lemma {:induction false} EventLabelSteps(key: string, upper: string, name: string, shown: string)
    requires ToUpper(key) == upper && Substitute(upper) == name && NormalizeKeyLabel(name) == shown
    ensures MapKeyEventToLabel(key) == shown
  {
  }

  /** What the substitutions of `mapKeyEventToLabel` make of single upper-cased key names, one name at a
      time (an unchanged result means that no substitution applies). */
  lemma SubstituteSpace() ensures Substitute(" ") == "SPACE" { }
  lemma SubstituteEscape() ensures Substitute("ESCAPE") == "ESC" { }
  lemma SubstituteControl() ensures Substitute("CONTROL") == "CTRL" { }
  lemma SubstituteOs() ensures Substitute("OS") == "WIN" { }
  lemma SubstitutePageUp() ensures Substitute("PAGEUP") == "PAGEUP" { }
  lemma SubstituteArrowLeft() ensures Substitute("ARROWLEFT") == "LEFT" { }
  lemma SubstituteArrowUp() ensures Substitute("ARROWUP") == "UP" { }
  lemma SubstituteArrowRight() ensures Substitute("ARROWRIGHT") == "RIGHT" { }
  lemma SubstituteArrowDown() ensures Substitute("ARROWDOWN") == "DOWN" { }
  lemma SubstituteSemicolon() ensures Substitute(";") == "SEMI" { }
  lemma SubstituteBracket() ensures Substitute("[") == "{" { }
  lemma SubstituteSlash() ensures Substitute("/") == "SLASH" { }
  lemma SubstituteBackslash() ensures Substitute("\\") == "YEN" { }
  lemma SubstituteDelete() ensures Substitute("DELETE") == "DELETE" { }

  /** The meta key lights up the caps bound to `LGUI` and `RGUI`, which are both drawn as `WIN`. */
  lemma {:induction false} MetaEventMatchesGui()
    ensures MapKeyEventToLabel("Meta") == "WIN"
  {
    EventLabelSteps("Meta", "META", "WIN", "WIN");
  }

  /** The shift key lights up the caps bound to `LSHFT` and `RSHFT`, which are both drawn as `SHIFT`. */
  lemma {:induction false} ShiftEventMatchesShift()
    ensures MapKeyEventToLabel("Shift") == "SHIFT"
  {
    EventLabelSteps("Shift", "SHIFT", "SHIFT", "SHIFT");
  }

  /** The delete key lights up the cap bound to `DELETE`, drawn as `DEL`. */
  lemma {:induction false} DeleteEventMatchesDelete()
    ensures MapKeyEventToLabel("Delete") == "DEL" == NormalizeKeyLabel("DELETE")
  {
    SubstituteDelete();
    EventLabelSteps("Delete", "DELETE", "DELETE", "DEL");
  }

  /** The backslash key lights up the cap drawn with a backslash (`BSLH` or `YEN`): the substitution to
      `YEN` and its normalisation cancel out. */
  lemma {:induction false} BackslashEventRoundTrip()
    ensures MapKeyEventToLabel("\\") == "\\" == NormalizeKeyLabel("BSLH")
  {
    SubstituteBackslash();
    EventLabelSteps("\\", "\\", "YEN", "\\");
  }

  /** The space bar lights up the cap bound to `SPACE`. */
  lemma {:induction false} SpaceEvent()
    ensures MapKeyEventToLabel(" ") == "SPACE" == NormalizeKeyLabel("SPACE")
  {
    SubstituteSpace();
    EventLabelSteps(" ", " ", "SPACE", "SPACE");
  }

  /** The escape key lights up the cap bound to `ESC`. */
  lemma {:induction false} EscapeEvent()
    ensures MapKeyEventToLabel("Escape") == "ESC" == NormalizeKeyLabel("ESC")
  {
    SubstituteEscape();
    EventLabelSteps("Escape", "ESCAPE", "ESC", "ESC");
  }

  /** Either control key lights up the caps bound to `LCTRL` and `RCTRL`. */
  lemma {:induction false} ControlEvent()
    ensures MapKeyEventToLabel("Control") == "CTRL" == NormalizeKeyLabel("LCTRL")
  {
    SubstituteControl();
    EventLabelSteps("Control", "CONTROL", "CTRL", "CTRL");
  }

  /** The `OS` key some browsers report for the Windows key lights up the caps bound to `LGUI` and `RGUI`. */
  lemma {:induction false} OsEvent()
    ensures MapKeyEventToLabel("OS") == "WIN" == NormalizeKeyLabel("RGUI")
  {
    SubstituteOs();
    EventLabelSteps("OS", "OS", "WIN", "WIN");
  }

  /** Page up has no substitution of its own: its upper-cased name `PAGEUP` is a name of the label table,
      so it lights up the cap bound to `PAGEUP`. */
  lemma {:induction false} PageUpEvent()
    ensures MapKeyEventToLabel("PageUp") == "PG_UP" == NormalizeKeyLabel("PAGEUP")
  {
    SubstitutePageUp();
    EventLabelSteps("PageUp", "PAGEUP", "PAGEUP", "PG_UP");
  }

  /** The left arrow gives `LEFT`, which the label table leaves as it is. */
  lemma {:induction false} ArrowLeftEvent()
    ensures MapKeyEventToLabel("ArrowLeft") == "LEFT" == NormalizeKeyLabel("LEFT")
  {
    SubstituteArrowLeft();
    EventLabelSteps("ArrowLeft", "ARROWLEFT", "LEFT", "LEFT");
  }

  /** The up arrow gives `UP`, which the label table leaves as it is. */
  lemma {:induction false} ArrowUpEvent()
    ensures MapKeyEventToLabel("ArrowUp") == "UP" == NormalizeKeyLabel("UP")
  {
    SubstituteArrowUp();
    EventLabelSteps("ArrowUp", "ARROWUP", "UP", "UP");
  }

  /** The right arrow gives `RIGHT`, which the label table leaves as it is. */
  lemma {:induction false} ArrowRightEvent()
    ensures MapKeyEventToLabel("ArrowRight") == "RIGHT" == NormalizeKeyLabel("RIGHT")
  {
    SubstituteArrowRight();
    EventLabelSteps("ArrowRight", "ARROWRIGHT", "RIGHT", "RIGHT");
  }

  /** The down arrow gives `DOWN`, which the label table leaves as it is. */
  lemma {:induction false} ArrowDownEvent()
    ensures MapKeyEventToLabel("ArrowDown") == "DOWN" == NormalizeKeyLabel("DOWN")
  {
    SubstituteArrowDown();
    EventLabelSteps("ArrowDown", "ARROWDOWN", "DOWN", "DOWN");
  }

  /** The semicolon goes via `SEMI` back to `;`, the label of a `SEMI` cap. */
  lemma {:induction false} SemicolonEvent()
    ensures MapKeyEventToLabel(";") == ";" == NormalizeKeyLabel("SEMI")
  {
    SubstituteSemicolon();
    EventLabelSteps(";", ";", "SEMI", ";");
  }

  /** The left bracket becomes `{`, the label of an `LBKT` cap. */
  lemma {:induction false} BracketEvent()
    ensures MapKeyEventToLabel("[") == "{" == NormalizeKeyLabel("LBKT")
  {
    SubstituteBracket();
    EventLabelSteps("[", "[", "{", "{");
  }

  /** The slash becomes `SLASH`, which the label table leaves as it is, so it never equals `/`, the label
      of an `FSLH` cap. */
  lemma {:induction false} SlashEvent()
    ensures MapKeyEventToLabel("/") == "SLASH" != NormalizeKeyLabel("FSLH")
  {
    SubstituteSlash();
    EventLabelSteps("/", "/", "SLASH", "SLASH");
  }

  /** A letter key lights up the cap of its upper-case letter. */
  lemma {:induction false} LetterEvent(c: char)
    requires 'a' <= c <= 'z'
    ensures MapKeyEventToLabel([c]) == [(c as int - 32) as char]
  {
    var u := [(c as int - 32) as char];
    assert ToUpper([c]) == u;
    assert Substitute(u) == u;
  }

  // -----------------------------------------------------------------------------------------------------
  // The keys whose default is suppressed
  // -----------------------------------------------------------------------------------------------------

  const FunctionKeys: seq<string> := ["F1", "F2", "F3", "F4", "F5", "F6", "F7", "F8", "F9", "F10", "F11", "F12"]

  /** The test both the key-down and the key-up handler make before `preventDefault()`: the keys that
      would move the focus or scroll the page, and the function keys. */
  predicate PreventsDefault(key: string)
  {
    key == "Tab" || StartsWith(key, "Arrow") || key == " " || key == "PageUp" || key == "PageDown"
    || key == "Home" || key == "End" || key in FunctionKeys
  }

  /** Every arrow key and every function key up to F12 is suppressed; F13, Enter and every key whose
      value is a single character other than the space bar's (every letter, digit and punctuation key)
      are not. */
  lemma {:induction false} PreventsDefaultKeys(suffix: string)
    ensures PreventsDefault("Arrow" + suffix)
    ensures forall k :: 0 <= k < 12 ==> PreventsDefault(FunctionKeys[k])
    ensures !PreventsDefault("F13") && !PreventsDefault("Enter")
    ensures forall c :: c != ' ' ==> !PreventsDefault([c])
  {
    assert ("Arrow" + suffix)[..5] == "Arrow";
    assert "Enter"[0] != "Arrow"[0];
    forall c | c != ' '
      ensures !PreventsDefault([c])
    {
      CharacterKeyKeepsDefault(c);
    }
  }

  /** A key whose value is one character other than the space bar's is none of the suppressed keys: each
      of those is longer, or is the space bar. */
  lemma {:induction false} CharacterKeyKeepsDefault(c: char)
    requires c != ' '
    ensures !PreventsDefault([c])
  {
    assert forall k :: 0 <= k < 12 ==> |FunctionKeys[k]| >= 2;
  }

  // -----------------------------------------------------------------------------------------------------
  // keyStates
  // -----------------------------------------------------------------------------------------------------

  /** `keyStates` after a key-down of `key`: its label is pressed, nothing else changes. */
  function Press(entries: map<string, bool>, key: string): (r: map<string, bool>)
    ensures MapKeyEventToLabel(key) != [] ==> Pressed(r, MapKeyEventToLabel(key))
    ensures forall l :: l != MapKeyEventToLabel(key) ==> (l in r <==> l in entries)
    ensures forall l :: l in entries && l != MapKeyEventToLabel(key) ==> r[l] == entries[l]
  {
    var name := MapKeyEventToLabel(key);
    if name == [] then entries else entries[name := true]
  }

  /** `keyStates` after a key-up of `key`: its label is not pressed, nothing else changes. */
  function Release(entries: map<string, bool>, key: string): (r: map<string, bool>)
    ensures MapKeyEventToLabel(key) != [] ==> !Pressed(r, MapKeyEventToLabel(key))
    ensures forall l :: l != MapKeyEventToLabel(key) ==> (l in r <==> l in entries)
    ensures forall l :: l in entries && l != MapKeyEventToLabel(key) ==> r[l] == entries[l]
  {
    var name := MapKeyEventToLabel(key);
    if name == [] then entries else entries[name := false]
  }

  /** `keyStates` after a blur: the same labels, none pressed. */
  function ReleaseAll(entries: map<string, bool>): (r: map<string, bool>)
    ensures r.Keys == entries.Keys
    ensures forall l :: !Pressed(r, l)
  {
    map l | l in entries :: false
  }

  /** Releasing a key undoes pressing it, whatever its state was before. */
  lemma {:induction false} ReleaseAfterPress(entries: map<string, bool>, key: string)
    ensures Release(Press(entries, key), key) == Release(entries, key)
  {
  }

  /** After a blur the redrawn keyboard shows no key as pressed, in any theme. */
  lemma {:induction false} BlurShowsNothingPressed(entries: map<string, bool>, theme: string, name: string)
    requires ThemeColors(theme).Some?
    ensures Fill(ThemeColors(theme).value, name, ReleaseAll(entries)) != ThemeColors(theme).value.pressed
  {
    FillShowsState(theme, name, ReleaseAll(entries));
  }

  /** After a key-down, the next drawing fills every cap carrying the label of that key in the pressed
      colour. */
  lemma {:induction false} KeyDownShowsPressed(entries: map<string, bool>, key: string, theme: string)
    requires ThemeColors(theme).Some? && key != []
    ensures Fill(ThemeColors(theme).value, MapKeyEventToLabel(key), Press(entries, key))
            == ThemeColors(theme).value.pressed
  {
    EmptyLabelOnlyForEmptyKey(key);
    FillShowsState(theme, MapKeyEventToLabel(key), Press(entries, key));
  }

  // -----------------------------------------------------------------------------------------------------
  // The page state and its handlers
  // -----------------------------------------------------------------------------------------------------

  /** `keyRects.find(r => r.label === name)`: the first rect with that label. */
  function FindRect(rects: seq<KeyRect>, name: string): (found: Option<KeyRect>)
    ensures found.Some? ==> found.value in rects && found.value.name == name
    ensures found.None? ==> forall k :: 0 <= k < |rects| ==> rects[k].name != name
    ensures found.Some? ==> exists k :: 0 <= k < |rects| && rects[k] == found.value
                                        && forall j :: 0 <= j < k ==> rects[j].name != name
  {
    if rects == [] then None
    else if rects[0].name == name then Some(rects[0])
    else FindRect(rects[1..], name)
  }

  /** The rect whose centre `lastPressedKeyCenter` holds after a key-down of the label `name`: the first
      rect with that label when the theme is `psychedelic`, otherwise the one it held before. */
  function PressCenter(rects: seq<KeyRect>, name: string, theme: string, before: Option<KeyRect>)
    : (after: Option<KeyRect>)
    ensures after != before ==> theme == "psychedelic" && after.Some? && after.value in rects
                                && after.value.name == name
    ensures theme == "psychedelic" && FindRect(rects, name).Some? ==> after == FindRect(rects, name)
    ensures theme != "psychedelic" || FindRect(rects, name).None? ==> after == before
  {
    match FindRect(rects, name)
    case Some(r) => if theme == "psychedelic" then Some(r) else before
    case None => before
  }

  /** With the list js/main.js searches, which stays empty, no key-down moves the centre. */
  lemma {:induction false} CenterNeverMoves(name: string, theme: string, before: Option<KeyRect>)
    ensures PressCenter([], name, theme, before) == before
  {
  }

  /** The module state of js/main.js. */
  class Viewer {
    /** The label-to-pressed map; `drawKeys` receives this object and registers its labels in it. */
    var keyStates: PressStates
    /** The rect whose centre is `lastPressedKeyCenter` (`None` for `null`). */
    var lastPressed: Option<KeyRect>
    /** The `keyRects` list of js/main.js itself, which nothing ever fills: the rects `drawKeys` records
        go to the list of js/renderer.js. */
    var keyRects: seq<KeyRect>

    ghost predicate Valid()
      reads this
    {
      keyRects == []
    }

    constructor()
      ensures Valid() && fresh(keyStates) && keyStates.entries == map[] && lastPressed.None?
    {
      keyStates := new PressStates();
      lastPressed := None;
      keyRects := [];
    }

    /** The key-down handler: whether the default is suppressed, then the label of the key is pressed.
        Because the list it searches is always empty, the centre never moves. */
    method KeyDown(key: string, theme: string) returns (preventDefault: bool)
      requires Valid()
      modifies keyStates, this`lastPressed
      ensures Valid()
      ensures preventDefault == PreventsDefault(key)
      ensures keyStates.entries == Press(old(keyStates.entries), key)
      ensures MapKeyEventToLabel(key) != [] ==>
                lastPressed == PressCenter(keyRects, MapKeyEventToLabel(key), theme, old(lastPressed))
      ensures lastPressed == old(lastPressed)
    {
      preventDefault := PreventsDefault(key);
      var name := MapKeyEventToLabel(key);
      if name == [] {
        return;
      }
      keyStates.entries := keyStates.entries[name := true];
      lastPressed := PressCenter(keyRects, name, theme, lastPressed);
      CenterNeverMoves(name, theme, old(lastPressed));
    }

    /** The key-up handler: whether the default is suppressed, then the label of the key is released. */
    method KeyUp(key: string) returns (preventDefault: bool)
      modifies keyStates
      ensures preventDefault == PreventsDefault(key)
      ensures keyStates.entries == Release(old(keyStates.entries), key)
    {
      preventDefault := PreventsDefault(key);
      var name := MapKeyEventToLabel(key);
      if name == [] {
        return;
      }
      keyStates.entries := keyStates.entries[name := false];
    }

    /** The blur handler: every label known so far is released, one at a time. */
    method Blur()
      modifies keyStates
      ensures keyStates.entries == ReleaseAll(old(keyStates.entries))
    {
      ghost var start := keyStates.entries;
      var keys := keyStates.entries.Keys;
      while keys != {}
        invariant keys <= start.Keys && keyStates.entries.Keys == start.Keys
        invariant forall l :: l in start && l !in keys ==> !keyStates.entries[l]
        decreases keys
      {
        var l :| l in keys;
        keyStates.entries := keyStates.entries[l := false];
        keys := keys - {l};
      }
    }

    /** The update button: `keyStates` becomes a new empty map; the object `drawKeys` extended before is
        left as it was. */
    method UpdateButton()
      modifies this`keyStates
      ensures fresh(keyStates) && keyStates.entries == map[]
      ensures old(keyStates).entries == old(keyStates.entries)
    {
      keyStates := new PressStates();
    }
  }
}
