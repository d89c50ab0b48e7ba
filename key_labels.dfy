/** `normalizeKeyLabel` of js/keyboard.js: the table that turns ZMK key names into the text drawn on a key
    cap. Unknown tokens pass through unchanged. */
module KeyLabels {
  import opened Text

  /** The `keyMapping` table; `None` for a token that is not one of its names. */
  function Mapping(token: string): (v: Option<string>)
    ensures v.Some? ==> v.value != []
  {
    match token
    case "N1" => Some("1") case "N2" => Some("2") case "N3" => Some("3") case "N4" => Some("4")
    case "N5" => Some("5") case "N6" => Some("6") case "N7" => Some("7") case "N8" => Some("8")
    case "N9" => Some("9") case "N0" => Some("0")
    case "LALT" => Some("ALT") case "RALT" => Some("ALT")
    case "LSHFT" => Some("SHIFT") case "LSHIFT" => Some("SHIFT")
    case "RSHFT" => Some("SHIFT") case "RSHIFT" => Some("SHIFT")
    case "LCTRL" => Some("CTRL") case "RCTRL" => Some("CTRL")
    case "LGUI" => Some("WIN") case "RGUI" => Some("WIN")
    case "SPACE" => Some("SPACE") case "ENTER" => Some("ENTER") case "ESC" => Some("ESC")
    case "BKSP" => Some("BACKSPACE") case "BSPC" => Some("BACKSPACE") case "INT3" => Some("INT3")
    case "TAB" => Some("TAB") case "TRANS" => Some("---")
    case "MINUS" => Some("-") case "EQUAL" => Some("=")
    case "LBRACKET" => Some("[") case "RBRACKET" => Some("]")
    case "SEMI" => Some(";") case "SQT" => Some("'")
    case "BSLH" => Some("\\") case "YEN" => Some("\\")
    case "COMMA" => Some(",") case "DOT" => Some(".") case "FSLH" => Some("/")
    case "LBKT" => Some("{") case "RBKT" => Some("}")
    case "ALPHANUMERIC" => Some("CAPS") case "COLON" => Some(":")
    case "DELETE" => Some("DEL") case "PAGEUP" => Some("PG_UP") case "PAGEDOWN" => Some("PG_DN")
    case "PRINTSCREEN" => Some("PSCRN")
    case _ => None
  }

  /** The tokens the table maps to themselves. */
  predicate SelfMapped(token: string)
  {
    token == "SPACE" || token == "ENTER" || token == "ESC" || token == "INT3" || token == "TAB"
  }

  /** `keyMapping[label] || label`: every value of the table is non-empty, so the fallback applies exactly
      to the tokens outside the table. */
  function NormalizeKeyLabel(token: string): string
  {
    match Mapping(token)
    case Some(v) => v
    case None => token
  }

  /** A token outside the table passes through unchanged, and the result is never renamed again: it is a
      self-mapped name or not a name of the table at all. */
  lemma {:induction false} NormalizeKeyLabelNormalForm(token: string)
    ensures Mapping(token).None? ==> NormalizeKeyLabel(token) == token
    ensures Mapping(NormalizeKeyLabel(token)).None?
            || (SelfMapped(NormalizeKeyLabel(token))
                && Mapping(NormalizeKeyLabel(token)) == Some(NormalizeKeyLabel(token)))
  {
  }

  /** Normalising twice is normalising once. */
  lemma {:induction false} NormalizeKeyLabelIdempotent(token: string)
    ensures NormalizeKeyLabel(NormalizeKeyLabel(token)) == NormalizeKeyLabel(token)
  {
    NormalizeKeyLabelNormalForm(token);
  }

  /** The side of a modifier is dropped, and the transparent binding is drawn as `---`. */
  lemma {:induction false} NormalizeKeyLabelMerges()
    ensures NormalizeKeyLabel("LALT") == NormalizeKeyLabel("RALT") == "ALT"
    ensures NormalizeKeyLabel("LSHFT") == NormalizeKeyLabel("LSHIFT") == "SHIFT"
    ensures NormalizeKeyLabel("RSHFT") == NormalizeKeyLabel("RSHIFT") == "SHIFT"
    ensures NormalizeKeyLabel("LCTRL") == NormalizeKeyLabel("RCTRL") == "CTRL"
    ensures NormalizeKeyLabel("LGUI") == NormalizeKeyLabel("RGUI") == "WIN"
    ensures NormalizeKeyLabel("TRANS") == "---"
  {
  }
}
