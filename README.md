# KeymapViewer, modelled in Dafny

KeymapViewer draws a keyboard from two texts. The first is a physical layout: a KLE-style JSON document
or a ZMK devicetree `&key_physical_attrs` block. The second is a keymap: a ZMK devicetree keymap or a
QMK `keymaps[][]` array. The keymap is drawn layer by layer, and the keys pressed on the computer's
keyboard are highlighted on the drawing.

This project models the parsing and label pipeline of the viewer and the state it keeps. Each source
file has its own module:

- `KeyLabels` (js/keyboard.js `normalizeKeyLabel`): the table that turns ZMK key names into the text
  drawn on a cap.
- `Bindings` (the binding patterns shared by js/keyboard.js, main.js and streamlit_app.py):
  - `&kp`, `&lt`, `&mt`, `&toJIS`, `&mF` and `&trans` are matched character by character;
  - first match wins, and `?` is the fallback;
  - both the unanchored JavaScript `match` and the anchored Python `re.match` are modelled;
  - the two are proved to agree on every binding fragment.
- `PhysicalLayout` (js/keyboard.js `parseJsonLayout`, `parseZmkPhysicalLayout`):
  - the dispatch between JSON and devicetree input;
  - the JSON key mapping with its defaults and scaling;
  - the devicetree directive scan with its `Set`-based deduplication in first-seen order.
- `Keymap` (js/keyboard.js `parseKeymapMacro`, `parseQmkKeymap`, `normalizeQmkKeycode`):
  - the layered line-by-line state machine, as a method with a loop, proved against a specification
    function;
  - the QMK `LAYOUT(...)` branch with its recursive keycode normaliser.
  - the end of a layer's arguments, read both as the lazy pattern has it (the first `)`) and at the `)` that
    closes `LAYOUT(`; the parser uses the first, and the Findings compare the two.
- `ViewerMain` (js/main.js):
  - `mapKeyEventToLabel`;
  - the keys whose browser default is suppressed;
  - the key-down, key-up, blur and update-button handlers, as methods of a class that owns `keyStates`.
- `Renderer` (js/renderer.js `drawKeys`):
  - one rect per key position, in order;
  - the label `i` or `?`, and the fill colour;
  - `keyStates` registration that never overwrites an entry;
  - the auto-fit scale and centring, over real numbers.
- `ZmkParser` (zmk-parser.js):
  - the five-bytes-per-key layout decoder;
  - the big-endian keycode decoder that writes a devicetree `bindings` block;
  - the table of USB HID keyboard usages: section 10 of the USB HID Usage Tables, Keyboard/Keypad
    Page 0x07;
  - the hexadecimal dump.
- `LegacyMain` (main.js) and `StreamlitApp` (streamlit_app.py): the earlier copies of the parsers, each
  with its own rules.
  - `LegacyMain` has a smaller label table, a fixed `layout_US`, and a flat keymap.
  - `StreamlitApp` has no deduplication, anchored matching and no comment skipping.
- `Text`: the runtime string operations these rely on:
  - JavaScript `\s`, `trim`, `split`, `includes`, `startsWith`, `toString(16)` and `padStart`.

Parsers that loop in the source are methods with loops. Each method's `ensures` ties its result to a
specification function, and the properties of the source are proved about that function as lemmas. A
binding fragment's classifier, or a lookup that can raise, is passed to the keymap specifications as a
function parameter.

## Model

| member | source | states |
|---|---|---|
| KeyLabels.Mapping | js/keyboard.js:84-96 | every value of the `keyMapping` table is a non-empty string, so `keyMapping[label] \|\| label` falls back exactly on tokens outside the table |
| KeyLabels.NormalizeKeyLabelNormalForm | js/keyboard.js:83-97 | a token outside the table passes through unchanged; every result is either outside the table or one of the self-mapped names SPACE/ENTER/ESC/INT3/TAB |
| KeyLabels.NormalizeKeyLabelIdempotent | js/keyboard.js:83-97 | normalising twice is normalising once |
| KeyLabels.NormalizeKeyLabelMerges | js/keyboard.js:87-91 | LALT/RALT give ALT, LSHFT/LSHIFT/RSHFT/RSHIFT give SHIFT, LCTRL/RCTRL give CTRL, LGUI/RGUI give WIN, TRANS gives `---` |
| Bindings.ElemAt | js/keyboard.js:177-182 | a literal matches only where it occurs and ends after it; a `\s+`/`\d+`/`\S+` run is non-empty, all its characters are in the class, and it stops only where the class ends |
| Bindings.MatchFrom | js/keyboard.js:177-183 | a match of a pattern gives one ascending boundary per element, starting at the match index and within the string |
| Bindings.SearchFrom | js/keyboard.js:219 | `code.match(pat)` finds the leftmost index where the pattern matches: it matches there and at no earlier index |
| Bindings.ClassifyAgree | streamlit_app.py:64-66 | on a binding fragment (`&` plus a piece without `&`), the unanchored JavaScript search and the anchored Python `re.match` pick the same label |
| Bindings.SearchIsAnchored | streamlit_app.py:65 | on a fragment a pattern can match only at index 0, so search and anchored match coincide |
| Bindings.ClassifyKp | js/keyboard.js:178 | `&kp X` (X non-blank, no spaces) is labelled `X` |
| Bindings.ClassifyMacroF | js/keyboard.js:182 | `&mF<digits>` is labelled `F<digits>` |
| Bindings.ClassifyTrans | js/keyboard.js:183 | every fragment starting with `&trans` is labelled `TRANS` |
| Bindings.ClassifyUnknown | js/keyboard.js:226 | a fragment no pattern matches at its start is labelled `?` |
| Bindings.ClassifySkip | js/keyboard.js:218-225 | a pattern that does not match is passed over: the label is decided by the later patterns |
| Bindings.ClassifyHit | js/keyboard.js:218-224 | the first pattern that matches decides the label, through its callback applied to the captured group |
| Bindings.FirstMatch | js/keyboard.js:217-226 | the `for ... of patterns` loop with `break` returns the classifier's label |
| Keymap.TrimmedFragment | js/keyboard.js:213-216 | a trimmed `&`-part with `&` put back is a binding fragment |
| PhysicalLayout.Lookup | js/keyboard.js:121 | `layouts[name]` is found exactly when some entry bears that name, and its value is that of the last entry with the name, as a JSON object keeps the last of duplicate keys |
| PhysicalLayout.ParseJsonLayout | js/keyboard.js:100-135 | empty text gives `[]`; text holding either ZMK `compatible` marker goes to the devicetree path; any other text goes to the JSON path |
| PhysicalLayout.JsonFailures | js/keyboard.js:109-134 | malformed JSON, a missing `layouts`, an empty `layouts`, an empty first name and a missing `layout` all give `[]` |
| PhysicalLayout.JsonLayoutKeys | js/keyboard.js:115-130 | one key per element of the first layout, in order; x,y,rx,ry default to 0 and w,h to 1 (0 counts as missing), all times 100; r defaults to 0 and is not scaled; w,h are never 0 |
| PhysicalLayout.UnsignedAt | js/keyboard.js:150 | `\d+` reads a non-negative value and consumes at least one character |
| PhysicalLayout.SignedAt | js/keyboard.js:150-154 | a signed field, `-?\d+` or (on the devicetree path) `(-\d+)`, consumes at least one character |
| PhysicalLayout.FieldsAt | js/keyboard.js:150 | the directive yields exactly its remaining fields, each after at least one `\s` |
| PhysicalLayout.DirectiveAt | js/keyboard.js:150-155 | a directive found at an index ends after it, so the `exec` loop advances |
| PhysicalLayout.Dedup | js/keyboard.js:158-162 | a `Set` read back with `Array.from` holds the same values as its insertions, no duplicates, and no more entries than insertions |
| PhysicalLayout.FirstIndices | js/keyboard.js:158-162 | the indices of first occurrences, increasing, each holding a value not seen before |
| PhysicalLayout.DedupKeepsFirstOccurrences | js/keyboard.js:158-162 | the deduplicated keys are exactly the input read at the indices of first occurrence, in order |
| PhysicalLayout.Keys | js/keyboard.js:155-157 | one key per directive, in order, with r divided by 100 and the other fields raw |
| PhysicalLayout.ZmkPhysicalLayoutKeys | js/keyboard.js:143-164 | the devicetree path reports no two equal keys, at most one per directive, and exactly the keys of the directives of the block |
| PhysicalLayout.DirectiveStep | js/keyboard.js:153 | a directive found at the scan position is the next one reported, and the scan resumes after it |
| PhysicalLayout.NoDirectiveStep | js/keyboard.js:153 | a position where no directive starts contributes nothing |
| PhysicalLayout.DedupKeysSnoc | js/keyboard.js:158 | one more directive adds its key unless an equal key is already there |
| PhysicalLayout.ParseZmkPhysicalLayout | js/keyboard.js:138-165 | the `exec` loop with its set returns the deduplicated keys of the block, and `[]` when no block matched |
| Keymap.Put | js/keyboard.js:193-197 | `layers[name] = layer` replaces the entry; a new name is appended to the enumeration order, an existing one keeps its place |
| Keymap.PutValid | js/keyboard.js:193-197 | storing a layer keeps every name listed once and in step with the entries |
| Keymap.LayerHeaderFrom | js/keyboard.js:190 | a `(\w+)_layer\s*{` match yields a non-empty word name |
| Keymap.LayerHeaderAt | js/keyboard.js:190 | a header matched at one position names a non-empty word |
| Keymap.LabelAt | js/keyboard.js:202 | a `label = "..."` match yields a non-empty value without quotes |
| Keymap.Pieces | js/keyboard.js:213-215 | the `&`-pieces kept are non-empty, and there are no more of them than parts |
| Keymap.Labels | js/keyboard.js:216-226 | one label per piece: the classifier's label of `&` plus the piece |
| Keymap.PerformHeader | js/keyboard.js:190-198 | a header line creates the layer, or replaces one of that name, with no keys and label `''`, and makes it current |
| Keymap.PerformKeepsOthers | js/keyboard.js:201-227 | any other line keeps the current layer, the layer names and their order, leaves every other layer alone, and only appends keys to the current one |
| Keymap.PerformBinds | js/keyboard.js:211-227 | a non-comment line inside a block with a current layer appends its labels to the current layer only |
| Keymap.PerformToggles | js/keyboard.js:208-209 | `bindings = <` sets the flag and `>;` clears it, adding no keys; `bindings = <` wins on a line holding both |
| Keymap.PerformOutside | js/keyboard.js:211 | outside a block a plain line changes nothing |
| Keymap.PerformLabel | js/keyboard.js:201-206 | a `label = "..."` line with a current layer sets that layer's caption and leaves its name, its keys, the other layers and the scan state alone |
| Keymap.PerformValid | js/keyboard.js:187-228 | every line keeps the current layer among the layers and the layer table well formed |
| Keymap.RunValid | js/keyboard.js:186-228 | the invariant holds after every prefix of the lines |
| Keymap.DtKeymapValid | js/keyboard.js:173-230 | whatever the text, the returned layers list every name once, in step with the entries, each entry carrying its own name |
| Keymap.PiecesCount | js/keyboard.js:213-215 | a binding line contributes exactly one label per `&`-part that is non-blank once trimmed |
| Keymap.PiecesAreFragments | js/keyboard.js:213-216 | each piece with `&` put back is a binding fragment, and is a trimmed part of the line |
| Keymap.ParseDtKeymap | js/keyboard.js:173-230 | the line loop returns the layers of the specification function |
| Keymap.ScanLines | js/keyboard.js:186-228 | the `forEach` over lines computes the state after all lines |
| Keymap.NextLine | js/keyboard.js:187-228 | reading line `i` takes the state after `i` lines to the state after `i + 1` |
| Keymap.ReadLine | js/keyboard.js:187-228 | the loop body performs the analysed trimmed line |
| Keymap.PushFragments | js/keyboard.js:213-227 | the inner `forEach` appends exactly the labels of the line's pieces to the named layer |
| Keymap.AddKeysTwice | js/keyboard.js:221 | appending in two steps is appending once |
| Keymap.AddKeysNothing | js/keyboard.js:221 | appending no keys changes nothing |
| Keymap.QmkRename | js/keyboard.js:275-290 | every value of the `qmkToZmk` table is non-empty |
| Keymap.ModFrom | js/keyboard.js:266-267 | a modifier application found is one of the eight wrappers, with its argument lying after the wrapper's name and within the text |
| Keymap.ModAt | js/keyboard.js:266 | a modifier matched at one position is one of the eight wrappers, its argument starting right after `MOD(` |
| Keymap.CloseParen | js/keyboard.js:266 | the lazy `(.*?)\)` ends at a `)` |
| Keymap.CloseParenAt | js/keyboard.js:266 | the lazy scan stops at the first `)` |
| Keymap.QmkStripsPrefix | js/keyboard.js:258 | a leading `KC_` is removed once, before anything else |
| Keymap.QmkSpecialCodes | js/keyboard.js:261-263 | `_______` gives TRANS, `0x0068` gives F13, `0x0069` gives F14, and `KC_TRNS` gives `TRNS` |
| Keymap.QmkModifier | js/keyboard.js:266-272 | `MOD(x)` becomes the modifier without its L/R side, `+`, and the normalised `x` |
| Keymap.QmkRenamed | js/keyboard.js:275-292 | a plain code (no `KC_`, not one of the special codes, no `(`) is looked up in the rename table and otherwise returned unchanged |
| Keymap.NonEmpty | js/keyboard.js:243 | the filter keeps only non-empty tokens, and no more than there were |
| Keymap.NonEmptyKeeps | js/keyboard.js:243 | the filter keeps a list of non-empty tokens whole |
| Keymap.QmkKeysOfTokens | js/keyboard.js:240-244 | tokens joined with `,` come back as the layer's keys, each normalised, in order |
| Keymap.MatchingParen | js/keyboard.js:235 | the index found is a `)` at or after the start |
| Keymap.ArgsClose | js/keyboard.js:235 | either reading of the end of the arguments finds a `)` at or after their start |
| Keymap.QmkLayerHead | js/keyboard.js:235 | `\[_(\w+)\]\s*=\s*LAYOUT\(` matched at one position gives a non-empty name and an argument start past that position |
| Keymap.QmkLayerFrom | js/keyboard.js:235-238 | a layer match has a non-empty name and ends after the scan position |
| Keymap.QmkLayerAt | js/keyboard.js:235 | a layer matched at one position has a non-empty name and ends after that position, however its arguments are ended |
| Keymap.QmkLayerHeadAt | js/keyboard.js:235 | on a text shaped `[_name]=LAYOUT(`, the match holds the name and the arguments up to the `)` that ends them |
| Keymap.QmkLayerAtStart | js/keyboard.js:235 | on `[_name]=LAYOUT(args)`, the pattern captures the name and the arguments up to the first `)` |
| Keymap.QmkSingleLayer | js/keyboard.js:233-254 | a text holding one layer `[_name]=LAYOUT(args)` parses to exactly that layer, labelled with its name |
| Keymap.QmkWholeText | js/keyboard.js:238-251 | a text whose first match runs to its end holds exactly that layer, under either reading of the arguments' end |
| Keymap.QmkScanValid | js/keyboard.js:238-251 | the QMK loop keeps every name listed once, each layer labelled with its name, under either reading of the arguments' end |
| Keymap.QmkKeymapValid | js/keyboard.js:233-254 | the QMK branch returns well-formed layers, each labelled with its name, under either reading of the arguments' end |
| Keymap.QmkArgsHoldNoClose | js/keyboard.js:235 | as written, the arguments of a layer never hold a `)` |
| Keymap.QmkUnclosedKept | js/keyboard.js:255-272 | a modifier application cut before its `)` is neither a modifier nor a renamed code, so the normaliser returns it unchanged |
| Keymap.QmkModifierCut | js/keyboard.js:233-272 | as written, `[_name]=LAYOUT(MOD(x))` parses to one layer whose one key is the text `MOD(x`, unchanged |
| Keymap.QmkModifierKept | js/keyboard.js:233-272 | with the arguments ended at the `)` that closes `LAYOUT(`, the same text has the one key `MOD+x`: the modifier without its side, `+`, and `x` normalised |
| Keymap.QmkClosesAgree | js/keyboard.js:235 | where the arguments up to the first `)` open no parenthesis, both readings find the same layer |
| Keymap.ParseQmkKeymap | js/keyboard.js:233-254 | the `exec` loop returns the layers of the specification function, with the arguments ended at the first `)` as the pattern is written |
| Keymap.ParseKeymapMacro | js/keyboard.js:168-171 | text holding `PROGMEM keymaps[][` takes the QMK branch, any other text the devicetree one |
| Keymap.KeymapMacroValid | js/keyboard.js:168-231 | whichever branch runs, the layers are well formed |
| ViewerMain.MapKeyEventFixedPoint | js/main.js:210-238 | the label of a key event is a fixed point of `normalizeKeyLabel`, so it can equal a drawn label |
| ViewerMain.EventLabelSteps | js/main.js:210-238 | the label of a key event is its upper-cased key, renamed by the substitution table, then normalised as a binding is |
| ViewerMain.EmptyLabelOnlyForEmptyKey | js/main.js:210-238 | only an empty `e.key` gives the empty label on which the handlers return early |
| ViewerMain.MetaEventMatchesGui | js/main.js:217-237 | `Meta` gives WIN, the label of LGUI/RGUI caps |
| ViewerMain.ShiftEventMatchesShift | js/main.js:214-237 | `Shift` gives SHIFT, the label of LSHFT/RSHFT caps |
| ViewerMain.DeleteEventMatchesDelete | js/main.js:221-237 | `Delete` gives DEL, the label of a DELETE cap |
| ViewerMain.BackslashEventRoundTrip | js/main.js:222-237 | `\` goes via YEN back to `\`, the label of a BSLH cap |
| ViewerMain.SpaceEvent | js/main.js:212-237 | the space bar gives SPACE, the label of a SPACE cap |
| ViewerMain.EscapeEvent | js/main.js:213-237 | `Escape` gives ESC, the label of an ESC cap |
| ViewerMain.ControlEvent | js/main.js:215-237 | `Control` gives CTRL, the label of LCTRL/RCTRL caps |
| ViewerMain.OsEvent | js/main.js:217-237 | `OS` gives WIN, the label of LGUI/RGUI caps |
| ViewerMain.PageUpEvent | js/main.js:210-238 | `PageUp` has no substitution; PAGEUP is normalised to PG_UP, the label of a PAGEUP cap |
| ViewerMain.ArrowLeftEvent | js/main.js:233-237 | `ArrowLeft` gives LEFT, a label the table leaves unchanged |
| ViewerMain.ArrowUpEvent | js/main.js:234-237 | `ArrowUp` gives UP, a label the table leaves unchanged |
| ViewerMain.ArrowRightEvent | js/main.js:235-237 | `ArrowRight` gives RIGHT, a label the table leaves unchanged |
| ViewerMain.ArrowDownEvent | js/main.js:236-237 | `ArrowDown` gives DOWN, a label the table leaves unchanged |
| ViewerMain.SemicolonEvent | js/main.js:226-237 | `;` goes via SEMI back to `;`, the label of a SEMI cap |
| ViewerMain.BracketEvent | js/main.js:223-237 | `[` gives `{`, the label of an LBKT cap |
| ViewerMain.SlashEvent | js/main.js:231-237 | `/` gives SLASH, which never equals `/`, the label of an FSLH cap |
| ViewerMain.LetterEvent | js/main.js:211 | a lower-case letter key gives its upper-case letter |
| ViewerMain.PreventsDefaultKeys | js/main.js:133-155 | the default is suppressed for every `Arrow*` key and F1 to F12, and not for F13, Enter or any one-character key other than the space bar |
| ViewerMain.CharacterKeyKeepsDefault | js/main.js:133-155 | a one-character key other than the space bar keeps its default |
| ViewerMain.Press | js/main.js:156-158 | a key-down marks its label pressed; no other entry is added, removed or changed |
| ViewerMain.Release | js/main.js:197-199 | a key-up marks its label not pressed; no other entry is added, removed or changed |
| ViewerMain.ReleaseAll | js/main.js:203-205 | a blur keeps the same labels and leaves none pressed |
| ViewerMain.ReleaseAfterPress | js/main.js:156-199 | releasing a key undoes pressing it |
| ViewerMain.BlurShowsNothingPressed | js/main.js:203-205 | after a blur no cap is filled in the pressed colour, in any theme |
| ViewerMain.KeyDownShowsPressed | js/main.js:156-158 | after a key-down the caps carrying that label are filled in the pressed colour |
| ViewerMain.FindRect | js/main.js:160 | `keyRects.find` returns the first rect with that label, or none when no rect has it |
| ViewerMain.PressCenter | js/main.js:160-166 | in the `psychedelic` theme, with a rect bearing the pressed label, `lastPressedKeyCenter` becomes the first such rect; otherwise it is unchanged |
| ViewerMain.CenterNeverMoves | js/main.js:160-166 | the `keyRects` that js/main.js declares at line 14 is never filled, so no key-down moves the centre |
| ViewerMain.Viewer.constructor | js/main.js:7-14 | the viewer starts with an empty, fresh `keyStates`, no last-pressed centre, and `keyRects` empty |
| ViewerMain.Viewer.KeyDown | js/main.js:132-172 | returns whether the default is suppressed, presses the label, and leaves the centre where it was |
| ViewerMain.Viewer.KeyUp | js/main.js:173-202 | returns whether the default is suppressed, and releases the label |
| ViewerMain.Viewer.Blur | js/main.js:203-206 | the loop releases every label known so far |
| ViewerMain.Viewer.UpdateButton | js/main.js:115-119 | `keyStates` becomes a new empty map; the old object is left as it was |
| Renderer.ThemeColors | js/renderer.js:29-37 | in every theme of the table, pressed, special and normal fills are three different colours |
| Renderer.PressStates.constructor | js/main.js:7 | `keyStates` starts as an empty object |
| Renderer.Canvas.constructor | js/renderer.js:4 | `keyRects` starts empty |
| Renderer.KeyLabel | js/renderer.js:85 | the label of key `i` is the normalised binding, or `?` when the binding is missing or empty |
| Renderer.Labels | js/renderer.js:69-85 | one label per key position, extra bindings ignored |
| Renderer.Fills | js/renderer.js:88-94 | one fill per cap, each the fill of its label |
| Renderer.FillShowsState | js/renderer.js:88-94 | the fill is pressed exactly for a pressed label, else special exactly for `---`, else normal |
| Renderer.RegisteredKeeps | js/renderer.js:154 | after a drawing every drawn label is a key, no key is removed, old entries keep their value, and new entries are false |
| Renderer.RegisteredPresses | js/renderer.js:154 | registering labels never presses a key |
| Renderer.RegisteredTwice | js/renderer.js:154 | drawing the same labels again adds nothing |
| Renderer.RegisteredStable | js/renderer.js:154 | registering labels that are all keys already changes nothing |
| Renderer.MinOf | js/renderer.js:48-49 | `Math.min(...xs)` is one of the values and no larger than any |
| Renderer.MaxOf | js/renderer.js:50-51 | `Math.max(...xs)` is one of the values and no smaller than any |
| Renderer.KeyInBounds | js/renderer.js:48-51 | every key lies within the unrotated bounding box |
| Renderer.FitFor | js/renderer.js:53-67 | `autoScale` is a finite number, so a fit exists, exactly when the layout is not a single point and no zero extent meets a canvas side that is not positive; a zero extent makes its own scale infinite and `Math.min` takes the other one; the offsets centre the layout at that scale |
| Renderer.Divide | js/renderer.js:60-61 | JavaScript division: finite, with quotient times divisor equal to the dividend, exactly when the divisor is not zero; a zero divisor gives Infinity for a positive dividend and NaN for a zero one |
| Renderer.MinNumber | js/renderer.js:62 | `Math.min`: NaN when either argument is NaN, otherwise one of the two arguments and no greater than either |
| Renderer.ZeroWidthFit | js/renderer.js:60-67 | a layout of no width and height 100 on an 800 by 600 canvas is drawn at scale 5.4 with offsets 400 and 30 |
| Renderer.FitWithin | js/renderer.js:53-67 | on a canvas of positive size and a layout box that is not a single point, including one of no width or of no height, the scale is positive, the scaled layout fits within 90% of the canvas on both axes, and each offset centres its axis |
| Renderer.FitCentres | js/renderer.js:53-67 | the layout fills 90% of the canvas in its limiting direction and at most 90% in the other (a layout of no width fills 90% of the height, one of no height 90% of the width), with equal margins left and right and above and below |
| Renderer.Centred | js/renderer.js:66-67 | along one axis the centring offset leaves equal margins on both sides |
| Renderer.UnrotatedKeysInside | js/renderer.js:48-83 | in a layout that is not a single point, including one of no width or of no height, every unrotated key lands inside the canvas, at least 5% away from each edge |
| Renderer.FitKeepsInside | js/renderer.js:60-83 | an unrotated key inside the bounding box is placed within 5% to 95% of the canvas on both axes |
| Renderer.Rects | js/renderer.js:69-83 | one rect per key position, in layout order |
| Renderer.DrawingOf | js/renderer.js:12-94 | a drawing has one fill per key, and a cap is filled in the pressed colour exactly when its label is pressed |
| Renderer.Canvas.DrawKeys | js/renderer.js:6-156 | the drawing is the one `DrawingOf` specifies; when nothing is drawn (an empty layout or keymap, or an unknown theme) `keyRects` is `[]` and `keyStates` is left alone; otherwise `keyRects` holds one rect per key in order and every label is registered |
| Renderer.DrawEach | js/renderer.js:69-155 | the `forEach` loop produces the rects, the fills and the registrations in order |
| ZmkParser.LayoutOf | zmk-parser.js:2-18 | the decoded layout has exactly as many keys as the count byte `data[1]` gives |
| ZmkParser.ParseZmkLayout | zmk-parser.js:2-18 | the loop with its moving offset returns the layout of the specification function |
| ZmkParser.KeyFieldsInRange | zmk-parser.js:10-14 | every key has a positive size; a defined rotation lies in [0, 360) and a defined x within [0, 25.5] |
| ZmkParser.LayoutComplete | zmk-parser.js:7-15 | every field is a finite number exactly when the record holds five bytes for each counted key |
| ZmkParser.LayoutRoundTrip | zmk-parser.js:2-18 | decoding an encoded layout record gives back every key, in order |
| ZmkParser.BigEndian | zmk-parser.js:30 | `(hi << 8) \| lo` is `hi * 256 + lo`, and both bytes can be read back from it |
| ZmkParser.KeycodesAt | zmk-parser.js:29-31 | keycode `j` is made of the bytes at `3 + 2j` and `4 + 2j` |
| ZmkParser.KeycodesRoundTrip | zmk-parser.js:21-31 | decoding an encoded keymap record gives back every keycode, in order |
| ZmkParser.LayerCountIgnored | zmk-parser.js:24 | the layer-count byte has no influence on the keymap |
| ZmkParser.KeycodesOf | zmk-parser.js:23-29 | the keymap record holds as many keycodes as the count byte `data[2]` gives |
| ZmkParser.ParseZmkKeymap | zmk-parser.js:21-37 | the loop builds the fixed header, one binding line per keycode and the fixed footer |
| ZmkParser.KeymapPrefixStep | zmk-parser.js:29-33 | one more keycode read adds its binding line to the text |
| ZmkParser.PrefixIsHeaderAndLines | zmk-parser.js:28-33 | the text built line by line is the header followed by the binding lines |
| ZmkParser.KeymapLines | zmk-parser.js:28-34 | split at line breaks, the keymap is the two header lines, exactly one `\t\t<binding>` line per keycode in order, and the two footer lines |
| ZmkParser.NoLineBreak | zmk-parser.js:42-69 | no binding text holds a line break |
| ZmkParser.LettersInOrder | zmk-parser.js:45-51 | usages 0x04 to 0x1D give `&kp A` to `&kp Z` in order |
| ZmkParser.DigitsInOrder | zmk-parser.js:53-55 | usages 0x1E to 0x27 give `&kp N1` to `&kp N9`, then `&kp N0` |
| ZmkParser.PaddedHex | zmk-parser.js:69 | `toString(16).padStart(k, '0')` is the k-digit lower-case form of a code that fits in k digits |
| ZmkParser.FixedHex | zmk-parser.js:69-75 | the zero-padded hexadecimal form has exactly the requested number of digits |
| ZmkParser.UnnamedRecordsCode | zmk-parser.js:69 | an unmapped code gives `&none /* 0x` + four lower-case hex digits + ` */`, and the code can be read back from it |
| ZmkParser.UnnamedInjective | zmk-parser.js:69 | two different unmapped codes never give the same text |
| ZmkParser.FixedHexRoundTrip | zmk-parser.js:69-75 | reading k written hex digits back gives the number |
| ZmkParser.ByteHexDigits | zmk-parser.js:75 | each byte becomes exactly two lower-case hex digits |
| ZmkParser.HexDumpLength | zmk-parser.js:73-77 | a dump of n bytes has `3n - 1` characters, and none for no bytes |
| ZmkParser.HexDumpRoundTrip | zmk-parser.js:73-77 | the dump is lossless: reading it back gives the bytes |
| LegacyMain.LegacyMapping | main.js:3-12 | every value of this smaller table is non-empty |
| LegacyMain.LegacyNormalForm | main.js:2-14 | a token outside the table passes through; every result is outside the table or self-mapped |
| LegacyMain.LegacyNormalizeIdempotent | main.js:2-14 | normalising twice is normalising once |
| LegacyMain.LegacyNormalizeMerges | main.js:6-11 | ALT, SHIFT and WIN merge both sides, F13 keeps its name, TRANS gives `---` |
| LegacyMain.LegacyTableKept | main.js:2-14 | every name this table knows is drawn the same by the later table of js/keyboard.js |
| LegacyMain.LegacyJsonFailures | main.js:17-35 | malformed text, no `layouts`, no `layout_US`, a `layout_US` without a `layout` array, or one holding a `null`, all give `[]` |
| LegacyMain.LegacyJsonKeys | main.js:20-28 | one key per element of `layout_US`, in order; x,y default to 0 and w,h to 1, times 100; r raw; no pivot |
| LegacyMain.LegacyAgreesWithFirstLayout | main.js:17-35 | when `layout_US` is the first layout, this reader gives the keys of the later JSON path without their pivots |
| LegacyMain.FlatMarkers | main.js:51-52 | a marker line moves the flag and adds no label; `bindings = <` wins over `>;` |
| LegacyMain.FlatSkips | main.js:53 | outside a block, and on empty and `//` lines, nothing happens |
| LegacyMain.FlatBindingLine | main.js:53-68 | a binding line keeps the labels so far and appends one label per non-blank part, each the label of a trimmed part |
| LegacyMain.FlatRunGrows | main.js:49-69 | labels are only appended: the list after more lines extends the list after fewer |
| LegacyMain.ParseKeymapMacro | main.js:38-71 | the line loop returns the labels of the specification function, with the six binding patterns of main.js:40-47, which are those of `Bindings.Classify` |
| LegacyMain.FlatLine | main.js:50-68 | the loop body performs one trimmed line, labelling bindings with `Bindings.Classify` |
| LegacyMain.PushLabels | main.js:54-68 | the inner `forEach` appends exactly the labels `Bindings.Classify` gives the line's pieces |
| StreamlitApp.LayoutKeys | streamlit_app.py:24-32 | one key per match, in order, with the fields as written |
| StreamlitApp.ParseKeymapLayout | streamlit_app.py:18-33 | the `finditer` loop returns one key per match of the specification |
| StreamlitApp.LayoutKeysAre | streamlit_app.py:21-33 | one key per directive anywhere in the text, in order, with no deduplication; w,h,x,y,r are the integers as written, and w,h are non-negative |
| StreamlitApp.DirectivesNonNegative | streamlit_app.py:21 | the width and height of every matched directive are non-negative |
| StreamlitApp.SignedNoParens | streamlit_app.py:21 | on text without `(`, a signed field is read the same with and without the parenthesised form of js/keyboard.js:150 |
| StreamlitApp.ParensRejected | streamlit_app.py:21 | a parenthesised negative is not accepted by this pattern |
| StreamlitApp.SameDirectivesWithoutParens | streamlit_app.py:21 | on text without `(` this scan and the devicetree scan of js/keyboard.js find the same directives |
| StreamlitApp.DevicetreeKeysAmongThese | streamlit_app.py:18-33 | every key js/keyboard.js draws for a block without `(` is, up to the rotation scaling, one of the keys this reader returns |
| StreamlitApp.PyMarkers | streamlit_app.py:49-54 | a line containing `bindings = <` sets the flag even when it also contains `>;`; marker lines add no labels |
| StreamlitApp.PyBindingLine | streamlit_app.py:56-73 | a non-blank line in a block, `//` lines included, keeps the labels so far and appends one label per non-blank stripped part |
| StreamlitApp.ParseKeymapMacro | streamlit_app.py:35-75 | the line loop returns the labels of the corrected specification function |
| StreamlitApp.PyLine | streamlit_app.py:49-73 | the loop body performs one line as read |
| StreamlitApp.GroupLabelFrom | streamlit_app.py:64-70 | where the pattern loop does not raise, it gives the anchored classifier's label; it raises only where that label is TRANS |
| StreamlitApp.LabelsAsWrittenRaise | streamlit_app.py:60-70 | a line's pieces raise exactly when one of them does |
| StreamlitApp.LabelsAsWrittenAgree | streamlit_app.py:60-73 | when no piece raises, the pieces get the labels the corrected classifier gives |
| StreamlitApp.RunAsWrittenAgrees | streamlit_app.py:48-73 | whenever the run as written gets through a line, it is in the corrected run's state |
| StreamlitApp.AsWrittenAgrees | streamlit_app.py:35-75 | whenever the program as written returns, it returns the corrected labels |
| StreamlitApp.TransRaises | streamlit_app.py:45-67 | on every `&trans...` fragment the lookup as written raises, while the corrected and JavaScript classifiers give TRANS |
| StreamlitApp.TransFragment | streamlit_app.py:45-67 | the lookup as written raises on `&trans` itself, whose corrected label is TRANS |
| StreamlitApp.RaisingBlock | streamlit_app.py:48-73 | a block of one raising piece between the two markers raises as written and gives that piece's label once corrected |
| StreamlitApp.TransBlockRaises | streamlit_app.py:45-67 | on a bindings block holding `&trans` the program as written raises, and the corrected reading gives `["TRANS"]` |

## Left out

- I/O and the user interface are not modelled:
  - `fetch`, DOM selectors and listener wiring;
  - `updateLayerSelector`, `redraw`, `resizeCanvas`, js/theme.js;
  - canvas drawing calls, shadows and fonts;
  - `console.log` and `updateLog`;
  - PIL and Streamlit in streamlit_app.py;
  - KeymapViewer.py and the frontend glue.
- `JSON.parse` is not modelled. Its result is an input (`JsonDoc`) reduced to the properties the code reads.
- The layout-block regular expression of js/keyboard.js:143 is not modelled. Its first match is an input (`block`), and only the directive scan inside it is modelled character by character.
- The regular expressions of the binding patterns, the layer header, `label = "..."`, `MOD(...)` and QMK `LAYOUT(...)` are modelled as specific scanners, not by a general regex engine.
- Keymap.ParseQmkKeymap: models `LAYOUT\(([\s\S]*?)\)` as written, ending a layer at the first `)`. The reading that ends it at the `)` closing `LAYOUT(` (`Keymap.AtMatchingClose`) is proved about in the Findings, but no parser method uses it, because the program does not.
- Renderer.UnrotatedKeysInside: only unrotated keys. `rotatePoint` (trigonometry) is a function parameter, so nothing is claimed about rotated keys.
- Floating-point arithmetic is not modelled. Geometry uses real numbers, so the rounding of `/ 10`, `* 360 / 256`, the scale and the offsets is not captured. `NaN` and the infinities are modelled only where a missing byte produces `NaN` in zmk-parser.js and where a zero layout extent divides the canvas size in renderer.js (`Renderer.Divide`, `Renderer.MinNumber`).
- Text.ToUpper: upper-cases ASCII letters only, while `toUpperCase` also maps other letters (`ß` to `SS`, for example).
- StreamlitApp: Python's own whitespace set and Unicode `\d` differ from the JavaScript classes used here:
  - `str.strip`, `\s` and `\d` are all modelled with the JavaScript sets;
  - a non-ASCII digit or space is therefore not read as Python would read it.
- Keymap.Put: the enumeration order of `layers` is modelled as insertion order. A JavaScript object lists integer-like names (a `0_layer`, say) first, in numeric order.
- JavaScript prototype lookups are not modelled: every table is a finite map. A token such as `constructor` would hit `Object.prototype` in `keyMapping[label]`.
- ZmkParser keycodes are 16-bit values and bytes are `bv8`. JavaScript's `<<` on 32-bit integers never exceeds 16 bits here, because each operand is a byte.
- The `lastPressedKeyCenter` centre is kept as the rect it was taken from. The two `+ w / 2` divisions are not modelled.

## Findings

| source | as written | input that shows it | evidently intended | confidence | as-written member | corrected member |
|---|---|---|---|---|---|---|
| streamlit_app.py:45-67 | the `&trans` pattern has no group, yet the loop calls `match.group(1)` on every match, which raises `IndexError` | a keymap text `bindings = <` / `&trans` / `>;` (`StreamlitApp.TransBlock`) | `&trans` is labelled `TRANS`, as the callback `lambda _: "TRANS"` and the JavaScript copies (js/keyboard.js:183, main.js:47) do | not executed | StreamlitApp.TransBlockRaises (with StreamlitApp.PyKeymapAsWritten and StreamlitApp.TransRaises) | StreamlitApp.ParseKeymapMacro, specified by StreamlitApp.PyKeymap with Bindings.ClassifyAnchored; StreamlitApp.AsWrittenAgrees proves it agrees with the program wherever the program returns |
| js/keyboard.js:235 | the lazy group `([\s\S]*?)\)` ends a layer's arguments at the first `)`, so a key `LCTL(KC_C)` cuts the layer short and the modifier branch of `normalizeQmkKeycode` (js/keyboard.js:265-272) never sees a whole `MOD(x)` from `parseQmkKeymap` | `[_BASE]=LAYOUT(LCTL(KC_C))`, whose one key comes out as `LCTL(KC_C` (`Keymap.QmkModifierCut` with `name := "BASE"`, `m := "LCTL"`, `x := "KC_C"`) | the arguments end at the `)` that closes `LAYOUT(`, so the key is `CTL+C` | not executed | Keymap.QmkModifierCut (with Keymap.QmkArgsHoldNoClose and Keymap.QmkUnclosedKept) | Keymap.QmkModifierKept, on Keymap.QmkKeymap with Keymap.AtMatchingClose; Keymap.QmkClosesAgree proves the two readings agree on keymaps without nested parentheses |
