/**
 * The ZMK device-blob decoder (zmk-parser.js): a layout record of five bytes
 * per key, a keymap record of big-endian 16-bit keycodes turned into
 * devicetree binding text through a table of USB HID keyboard usages
 * (section 10 of the USB HID Usage Tables, Keyboard/Keypad Page 0x07), and
 * the hexadecimal dump used for logging.
 *
 * A JavaScript read past the end of the buffer yields `undefined`: in the
 * layout decoder that becomes `NaN` (or `1` through `|| 1`), in the keymap
 * decoder the bitwise operators turn it into 0, and as a loop bound it stops
 * the loop at once. Those paths are modelled, so no decoder demands a
 * minimum length of its input.
 */
module ZmkParser {
  import opened Text

  /** One element of the device's `Uint8Array`. */
  type byte = bv8

  /** `data[k]`, which is `undefined` past the end. */
  function At(data: seq<byte>, k: nat): (b: Option<byte>)
    ensures b.Some? <==> k < |data|
    ensures b.Some? ==> b.value == data[k]
  {
    if k < |data| then Some(data[k]) else None
  }

  /** A JavaScript number as the layout decoder can produce it. */
  datatype Number = Finite(value: real) | NaN

  /** One decoded layout key: position and size in key units, rotation in degrees. */
  datatype ZmkKey = ZmkKey(x: Number, y: Number, w: real, h: real, r: Number)

  /** `data[k] / 10` */
  function Tenth(b: Option<byte>): Number
  {
    match b
    case Some(v) => Finite(v as int as real / 10.0)
    case None => NaN
  }

  /** `data[k] / 10 || 1`: both `NaN` and `0` are falsy. */
  function SizeOf(b: Option<byte>): real
  {
    match b
    case Some(v) => if v == 0 then 1.0 else v as int as real / 10.0
    case None => 1.0
  }

  /** `(data[k] * 360) / 256` */
  function Angle(b: Option<byte>): Number
  {
    match b
    case Some(v) => Finite((v as int * 360) as real / 256.0)
    case None => NaN
  }

  /** The key whose five bytes start at `offset`. */
  function KeyAt(data: seq<byte>, offset: nat): ZmkKey
  {
    ZmkKey(Tenth(At(data, offset)), Tenth(At(data, offset + 1)),
           SizeOf(At(data, offset + 2)), SizeOf(At(data, offset + 3)),
           Angle(At(data, offset + 4)))
  }

  /** `data[1]` as a loop bound; `i < undefined` is false, so no key is read. */
  function LayoutKeyCount(data: seq<byte>): nat
  {
    if 1 < |data| then data[1] as nat else 0
  }

  /** The layout a record describes: key `i` is read from offset `2 + 5 * i`. */
  function LayoutOf(data: seq<byte>): (layout: seq<ZmkKey>)
    ensures |layout| == LayoutKeyCount(data)
  {
    seq(LayoutKeyCount(data), i requires 0 <= i => KeyAt(data, 2 + 5 * i))
  }

  /** `parseZMKLayout`: skips the header byte, reads the key count, then five bytes per key. */
  method ParseZmkLayout(data: seq<byte>) returns (layout: seq<ZmkKey>)
    ensures layout == LayoutOf(data)
  {
    layout := [];
    var offset := 1;
    var keyCount := if offset < |data| then data[offset] as nat else 0;
    offset := offset + 1;
    var i := 0;
    while i < keyCount
      invariant 0 <= i <= keyCount == LayoutKeyCount(data)
      invariant offset == 2 + 5 * i
      invariant layout == LayoutOf(data)[..i]
    {
      var x := Tenth(At(data, offset));
      offset := offset + 1;
      var y := Tenth(At(data, offset));
      offset := offset + 1;
      var w := SizeOf(At(data, offset));
      offset := offset + 1;
      var h := SizeOf(At(data, offset));
      offset := offset + 1;
      var r := Angle(At(data, offset));
      offset := offset + 1;
      layout := layout + [ZmkKey(x, y, w, h, r)];
      i := i + 1;
    }
  }

  /** Every decoded key has a positive size, and every rotation that was read lies in [0, 360). */
  lemma KeyFieldsInRange(data: seq<byte>, i: nat)
    requires i < |LayoutOf(data)|
    ensures LayoutOf(data)[i].w > 0.0 && LayoutOf(data)[i].h > 0.0
    ensures LayoutOf(data)[i].r.Finite? ==> 0.0 <= LayoutOf(data)[i].r.value < 360.0
    ensures LayoutOf(data)[i].x.Finite? ==> 0.0 <= LayoutOf(data)[i].x.value <= 25.5
  {
  }

  /** A record with its count byte decodes to finite numbers exactly when it holds five bytes for every key. */
  lemma {:induction false} LayoutComplete(data: seq<byte>)
    requires 2 <= |data|
    ensures (forall i :: 0 <= i < |LayoutOf(data)| ==>
               LayoutOf(data)[i].x.Finite? && LayoutOf(data)[i].y.Finite? && LayoutOf(data)[i].r.Finite?)
            <==> 2 + 5 * LayoutKeyCount(data) <= |data|
  {
    var n := LayoutKeyCount(data);
    if 2 + 5 * n > |data| {
      assert LayoutOf(data)[n - 1] == KeyAt(data, 2 + 5 * (n - 1));
      assert LayoutOf(data)[n - 1].r == NaN;
    }
  }

  /** The five raw bytes of one key record. */
  datatype RawKey = RawKey(x: byte, y: byte, w: byte, h: byte, r: byte)

  function RawBytes(keys: seq<RawKey>): (bytes: seq<byte>)
    ensures |bytes| == 5 * |keys|
  {
    if keys == [] then []
    else [keys[0].x, keys[0].y, keys[0].w, keys[0].h, keys[0].r] + RawBytes(keys[1..])
  }

  /** A layout record as a device would send it: a header byte, the key count, the key records. */
  function EncodeLayout(header: byte, count: byte, keys: seq<RawKey>): seq<byte>
    requires count as nat == |keys|
  {
    [header, count] + RawBytes(keys)
  }

  /** What `parseZMKLayout` makes of one key record. */
  function DecodeRaw(k: RawKey): ZmkKey
  {
    ZmkKey(Finite(k.x as int as real / 10.0), Finite(k.y as int as real / 10.0),
           if k.w == 0 then 1.0 else k.w as int as real / 10.0,
           if k.h == 0 then 1.0 else k.h as int as real / 10.0,
           Finite((k.r as int * 360) as real / 256.0))
  }

  lemma {:induction false} RawBytesAt(keys: seq<RawKey>, i: nat)
    requires i < |keys|
    ensures RawBytes(keys)[5 * i] == keys[i].x && RawBytes(keys)[5 * i + 1] == keys[i].y
    ensures RawBytes(keys)[5 * i + 2] == keys[i].w && RawBytes(keys)[5 * i + 3] == keys[i].h
    ensures RawBytes(keys)[5 * i + 4] == keys[i].r
  {
    if i > 0 {
      RawBytesAt(keys[1..], i - 1);
      assert RawBytes(keys) == [keys[0].x, keys[0].y, keys[0].w, keys[0].h, keys[0].r] + RawBytes(keys[1..]);
    }
  }

  /** Decoding an encoded layout gives back every key, in order. */
  lemma LayoutRoundTrip(header: byte, count: byte, keys: seq<RawKey>)
    requires count as nat == |keys|
    ensures LayoutOf(EncodeLayout(header, count, keys)) == seq(|keys|, i requires 0 <= i < |keys| => DecodeRaw(keys[i]))
  {
    var data := EncodeLayout(header, count, keys);
    forall i | 0 <= i < |keys|
      ensures LayoutOf(data)[i] == DecodeRaw(keys[i])
    {
      RawBytesAt(keys, i);
    }
  }

  // ---------------------------------------------------------------- keymap

  /** `data[k]` as an operand of `<<` or `|`, which turn `undefined` into 0. */
  function Byte0(data: seq<byte>, k: nat): byte
  {
    if k < |data| then data[k] else 0
  }

  /** `(hi << 8) | lo`, the keycode two bytes make. */
  function Keycode(hi: byte, lo: byte): bv16
  {
    (hi as bv16 << 8) | lo as bv16
  }

  /** The keycode is the big-endian value of its two bytes. */
  lemma BigEndian(hi: byte, lo: byte)
    ensures Keycode(hi, lo) == hi as bv16 * 256 + lo as bv16
    ensures (Keycode(hi, lo) >> 8) as byte == hi && (Keycode(hi, lo) & 0xFF) as byte == lo
  {
  }

  /** `data[2]` as a loop bound (the layer count at `data[1]` is read and not used). */
  function KeymapKeyCount(data: seq<byte>): nat
  {
    if 2 < |data| then data[2] as nat else 0
  }

  /** The first `n` keycodes of the first layer, in the order the decoder reads them. */
  function Keycodes(data: seq<byte>, n: nat): (codes: seq<bv16>)
    ensures |codes| == n
  {
    if n == 0 then [] else Keycodes(data, n - 1) + [Keycode(Byte0(data, 1 + 2 * n), Byte0(data, 2 + 2 * n))]
  }

  /** The keycodes of the first layer. */
  function KeycodesOf(data: seq<byte>): (codes: seq<bv16>)
    ensures |codes| == KeymapKeyCount(data)
  {
    Keycodes(data, KeymapKeyCount(data))
  }

  /** Keycode `j` is made of the bytes at offsets `3 + 2 * j` and `4 + 2 * j`. */
  lemma {:induction false} KeycodesAt(data: seq<byte>, n: nat, j: nat)
    requires j < n
    ensures Keycodes(data, n)[j] == Keycode(Byte0(data, 3 + 2 * j), Byte0(data, 4 + 2 * j))
  {
    if j < n - 1 {
      KeycodesAt(data, n - 1, j);
    }
  }

  /** The fixed first lines of the generated keymap, `"/ {\n\tbindings = <\n"`. */
  const KeymapHeader: string := "/ {" + "\n" + "\tbindings = <" + "\n"
  /** The fixed last lines of the generated keymap, `"\t>;\n};"`. */
  const KeymapFooter: string := "\t>;" + "\n" + "};"

  /** The line a keycode contributes, without its line break: two tabs and the binding text. */
  function BindingLine(code: bv16): string
  {
    "\t\t" + ConvertZmkKeycode(code as nat)
  }

  /** The keymap text up to the end of the last binding line, built as the decoder appends to it. */
  function KeymapPrefix(codes: seq<bv16>): string
  {
    if codes == [] then KeymapHeader
    else KeymapPrefix(codes[..|codes| - 1]) + "\t\t" + ConvertZmkKeycode(codes[|codes| - 1] as nat) + "\n"
  }

  /** The keymap text `parseZMKKeymap` builds from a list of keycodes. */
  function KeymapText(codes: seq<bv16>): string
  {
    KeymapPrefix(codes) + KeymapFooter
  }

  /** One more keycode read adds its binding line to the text. */
  lemma {:induction false} KeymapPrefixStep(data: seq<byte>, i: nat)
    ensures KeymapPrefix(Keycodes(data, i + 1))
            == KeymapPrefix(Keycodes(data, i)) + "\t\t"
               + ConvertZmkKeycode(Keycode(Byte0(data, 3 + 2 * i), Byte0(data, 4 + 2 * i)) as nat) + "\n"
  {
    var c := Keycode(Byte0(data, 3 + 2 * i), Byte0(data, 4 + 2 * i));
    assert 1 + 2 * (i + 1) == 3 + 2 * i && 2 + 2 * (i + 1) == 4 + 2 * i;
    assert Keycodes(data, i + 1) == Keycodes(data, i) + [c];
    KeymapPrefixSnoc(Keycodes(data, i), c);
  }

  /** Appending a keycode appends its binding line. */
  lemma KeymapPrefixSnoc(codes: seq<bv16>, c: bv16)
    ensures KeymapPrefix(codes + [c]) == KeymapPrefix(codes) + "\t\t" + ConvertZmkKeycode(c as nat) + "\n"
  {
    assert (codes + [c])[..|codes|] == codes;
  }

  /** `parseZMKKeymap`: only the first layer is decoded, into a devicetree `bindings` block. */
  method ParseZmkKeymap(data: seq<byte>) returns (keymap: string)
    ensures keymap == KeymapText(KeycodesOf(data))
  {
    var offset := 1;
    var layerCount := Byte0(data, offset);
    offset := offset + 1;
    var keyCount := if offset < |data| then data[offset] as nat else 0;
    offset := offset + 1;
    keymap := KeymapHeader;
    var i := 0;
    while i < keyCount
      invariant 0 <= i <= keyCount == KeymapKeyCount(data)
      invariant offset == 3 + 2 * i
      invariant keymap == KeymapPrefix(Keycodes(data, i))
    {
      var keycode := Keycode(Byte0(data, offset), Byte0(data, offset + 1));
      offset := offset + 2;
      KeymapPrefixStep(data, i);
      keymap := keymap + "\t\t" + ConvertZmkKeycode(keycode as nat) + "\n";
      i := i + 1;
    }
    keymap := keymap + KeymapFooter;
  }

  /** A keymap record: a header byte, the layer count, the key count, then two bytes per keycode. */
  function EncodeKeymap(header: byte, layers: byte, count: byte, codes: seq<bv16>): seq<byte>
    requires count as nat == |codes|
  {
    [header, layers, count] + CodeBytes(codes)
  }

  function CodeBytes(codes: seq<bv16>): (bytes: seq<byte>)
    ensures |bytes| == 2 * |codes|
  {
    if codes == [] then []
    else [(codes[0] >> 8) as byte, (codes[0] & 0xFF) as byte] + CodeBytes(codes[1..])
  }

  lemma {:induction false} CodeBytesAt(codes: seq<bv16>, i: nat)
    requires i < |codes|
    ensures CodeBytes(codes)[2 * i] == (codes[i] >> 8) as byte
    ensures CodeBytes(codes)[2 * i + 1] == (codes[i] & 0xFF) as byte
  {
    if i > 0 {
      CodeBytesAt(codes[1..], i - 1);
    }
  }

  lemma SplitKeycode(c: bv16)
    ensures Keycode((c >> 8) as byte, (c & 0xFF) as byte) == c
  {
  }

  /** Decoding an encoded keymap record gives back every keycode, in order. */
  lemma KeycodesRoundTrip(header: byte, layers: byte, count: byte, codes: seq<bv16>)
    requires count as nat == |codes|
    ensures KeycodesOf(EncodeKeymap(header, layers, count, codes)) == codes
  {
    var data := EncodeKeymap(header, layers, count, codes);
    forall i | 0 <= i < |codes|
      ensures KeycodesOf(data)[i] == codes[i]
    {
      KeycodesAt(data, |codes|, i);
      CodeBytesAt(codes, i);
      SplitKeycode(codes[i]);
    }
  }

  /** The layer count byte has no influence on the keymap. */
  lemma LayerCountIgnored(data: seq<byte>, layers: byte)
    requires 1 < |data|
    ensures KeycodesOf(data[1 := layers]) == KeycodesOf(data)
  {
    var d := data[1 := layers];
    var n := KeymapKeyCount(data);
    forall j | 0 <= j < n
      ensures KeycodesOf(d)[j] == KeycodesOf(data)[j]
    {
      KeycodesAt(d, n, j);
      KeycodesAt(data, n, j);
    }
  }

  /** One line per keycode, each ending in a line break. */
  function Lines(codes: seq<bv16>): string
  {
    if codes == [] then [] else BindingLine(codes[0]) + "\n" + Lines(codes[1..])
  }

  lemma {:induction false} LinesSnoc(codes: seq<bv16>, c: bv16)
    ensures Lines(codes + [c]) == Lines(codes) + BindingLine(c) + "\n"
  {
    if codes != [] {
      assert (codes + [c])[1..] == codes[1..] + [c];
      LinesSnoc(codes[1..], c);
      Regroup(BindingLine(codes[0]) + "\n", Lines(codes[1..]), BindingLine(c));
    }
  }

  lemma Regroup(x: string, m: string, b: string)
    ensures x + (m + b + "\n") == x + m + b + "\n"
  {
    AppendAssoc(x, m + b, "\n");
    AppendAssoc(x, m, b);
  }

  /** The text built line by line is the header followed by the lines. */
  lemma {:induction false} PrefixIsHeaderAndLines(codes: seq<bv16>)
    ensures KeymapPrefix(codes) == KeymapHeader + Lines(codes)
  {
    if codes != [] {
      var front := codes[..|codes| - 1];
      var last := codes[|codes| - 1];
      PrefixIsHeaderAndLines(front);
      LinesSnoc(front, last);
      assert front + [last] == codes;
      var b := ConvertZmkKeycode(last as nat);
      AppendAssoc(KeymapPrefix(front), "\t\t", b);
      AppendAssoc(KeymapHeader, Lines(front), BindingLine(last));
      AppendAssoc(KeymapHeader, Lines(front) + BindingLine(last), "\n");
    }
  }

  lemma {:induction false} LinesJoin(codes: seq<bv16>)
    ensures Lines(codes) + KeymapFooter
            == Join(seq(|codes|, i requires 0 <= i < |codes| => BindingLine(codes[i])) + ["\t>;", "};"], '\n')
  {
    var lines := seq(|codes|, i requires 0 <= i < |codes| => BindingLine(codes[i]));
    if codes == [] {
      assert lines + ["\t>;", "};"] == ["\t>;", "};"];
      assert Join(["\t>;", "};"], '\n') == "\t>;" + ['\n'] + "};";
    } else {
      LinesJoin(codes[1..]);
      var rest := seq(|codes[1..]|, i requires 0 <= i < |codes[1..]| => BindingLine(codes[1..][i]));
      assert (lines + ["\t>;", "};"])[1..] == rest + ["\t>;", "};"];
      AppendAssoc(BindingLine(codes[0]) + "\n", Lines(codes[1..]), KeymapFooter);
    }
  }

  lemma {:induction false} HeaderJoin(rest: seq<string>)
    requires |rest| >= 1
    ensures Join(["/ {", "\tbindings = <"] + rest, '\n') == KeymapHeader + Join(rest, '\n')
  {
    var a, b := "/ {", "\tbindings = <";
    JoinCons(b, rest, '\n');
    assert [b] + rest == ([a, b] + rest)[1..];
    JoinCons(a, [b] + rest, '\n');
    assert [a] + ([b] + rest) == [a, b] + rest;
    var j := Join(rest, '\n');
    AppendAssoc(a + "\n", b + "\n", j);
    AppendAssoc(a + "\n", b, "\n");
  }

  /** The header lines, one line per keycode and the footer lines. */
  function KeymapParts(codes: seq<bv16>): (parts: seq<string>)
    ensures |parts| == |codes| + 4
  {
    ["/ {", "\tbindings = <"] + seq(|codes|, i requires 0 <= i < |codes| => BindingLine(codes[i])) + ["\t>;", "};"]
  }

  lemma {:induction false} KeymapJoin(codes: seq<bv16>)
    ensures Join(KeymapParts(codes), '\n') == KeymapText(codes)
  {
    var lines := seq(|codes|, i requires 0 <= i < |codes| => BindingLine(codes[i]));
    LinesJoin(codes);
    HeaderJoin(lines + ["\t>;", "};"]);
    PrefixIsHeaderAndLines(codes);
    AppendAssoc(KeymapHeader, Lines(codes), KeymapFooter);
    assert KeymapParts(codes) == ["/ {", "\tbindings = <"] + (lines + ["\t>;", "};"]);
  }

  lemma {:induction false} KeymapPartsUnbroken(codes: seq<bv16>, i: nat)
    requires i < |codes| + 4
    ensures '\n' !in KeymapParts(codes)[i]
  {
    var parts := KeymapParts(codes);
    if i < 2 {
      assert parts[i] == ["/ {", "\tbindings = <"][i];
    } else if i < 2 + |codes| {
      assert parts[i] == BindingLine(codes[i - 2]);
      NoLineBreak(codes[i - 2] as nat);
    } else {
      assert parts[i] == ["\t>;", "};"][i - 2 - |codes|];
    }
  }

  /** Split at line breaks, the keymap is the two header lines, one line per keycode in order, and the two footer lines. */
  lemma KeymapLines(codes: seq<bv16>)
    ensures Split(KeymapText(codes), '\n') == KeymapParts(codes)
  {
    KeymapJoin(codes);
    forall i | 0 <= i < |codes| + 4
      ensures '\n' !in KeymapParts(codes)[i]
    {
      KeymapPartsUnbroken(codes, i);
    }
    SplitOf(KeymapText(codes), '\n', KeymapParts(codes));
  }

  // ------------------------------------------------------ keycode table

  /** The named entries of `keycodeMap`. */
  function KeycodeTable(code: nat): Option<string>
  {
    match code
    case 0x0000 => Some("&trans")
    case 0x0004 => Some("&kp A")
    case 0x0005 => Some("&kp B")
    case 0x0006 => Some("&kp C")
    case 0x0007 => Some("&kp D")
    case 0x0008 => Some("&kp E")
    case 0x0009 => Some("&kp F")
    case 0x000A => Some("&kp G")
    case 0x000B => Some("&kp H")
    case 0x000C => Some("&kp I")
    case 0x000D => Some("&kp J")
    case 0x000E => Some("&kp K")
    case 0x000F => Some("&kp L")
    case 0x0010 => Some("&kp M")
    case 0x0011 => Some("&kp N")
    case 0x0012 => Some("&kp O")
    case 0x0013 => Some("&kp P")
    case 0x0014 => Some("&kp Q")
    case 0x0015 => Some("&kp R")
    case 0x0016 => Some("&kp S")
    case 0x0017 => Some("&kp T")
    case 0x0018 => Some("&kp U")
    case 0x0019 => Some("&kp V")
    case 0x001A => Some("&kp W")
    case 0x001B => Some("&kp X")
    case 0x001C => Some("&kp Y")
    case 0x001D => Some("&kp Z")
    case 0x001E => Some("&kp N1")
    case 0x001F => Some("&kp N2")
    case 0x0020 => Some("&kp N3")
    case 0x0021 => Some("&kp N4")
    case 0x0022 => Some("&kp N5")
    case 0x0023 => Some("&kp N6")
    case 0x0024 => Some("&kp N7")
    case 0x0025 => Some("&kp N8")
    case 0x0026 => Some("&kp N9")
    case 0x0027 => Some("&kp N0")
    case 0x0028 => Some("&kp ENTER")
    case 0x0029 => Some("&kp ESC")
    case 0x002A => Some("&kp BSPC")
    case 0x002B => Some("&kp TAB")
    case 0x002C => Some("&kp SPACE")
    case 0x002D => Some("&kp MINUS")
    case 0x002E => Some("&kp EQUAL")
    case 0x002F => Some("&kp LBKT")
    case 0x0030 => Some("&kp RBKT")
    case 0x00E0 => Some("&kp LCTRL")
    case 0x00E1 => Some("&kp LSHFT")
    case 0x00E2 => Some("&kp LALT")
    case 0x00E3 => Some("&kp LGUI")
    case 0x00E4 => Some("&kp RCTRL")
    case 0x00E5 => Some("&kp RSHFT")
    case 0x00E6 => Some("&kp RALT")
    case 0x00E7 => Some("&kp RGUI")
    case 0x003A => Some("&kp F1")
    case 0x003B => Some("&kp F2")
    case 0x003C => Some("&kp F3")
    case 0x003D => Some("&kp F4")
    case 0x003E => Some("&kp F5")
    case 0x003F => Some("&kp F6")
    case 0x0040 => Some("&kp F7")
    case 0x0041 => Some("&kp F8")
    case 0x0042 => Some("&kp F9")
    case 0x0043 => Some("&kp F10")
    case 0x0044 => Some("&kp F11")
    case 0x0045 => Some("&kp F12")
    case _ => None
  }

  /** `k` lower-case hexadecimal digits of `n`, most significant first. */
  function FixedHex(n: nat, k: nat): (s: string)
    ensures |s| == k
  {
    if k == 0 then [] else FixedHex(n / 16, k - 1) + [HexDigit(n % 16)]
  }

  /** The text for a keycode the table does not name. */
  function Unnamed(code: nat): string
  {
    "&none /* 0x" + PadStart(Hex(code), 4) + " */"
  }

  /** `convertZMKKeycode`: the table entry, or an `&none` binding that records the code. */
  function ConvertZmkKeycode(code: nat): string
  {
    match KeycodeTable(code)
    case Some(binding) => binding
    case None => Unnamed(code)
  }

  /** Every character of `n.toString(16)` is a hexadecimal digit. */
  lemma {:induction false} HexChars(n: nat)
    ensures forall k :: 0 <= k < |Hex(n)| ==> HexValue(Hex(n)[k]).Some?
    decreases n
  {
    if n >= 16 {
      HexChars(n / 16);
    }
  }

  lemma TableHasNoLineBreak(code: nat)
    requires KeycodeTable(code).Some?
    ensures '\n' !in KeycodeTable(code).value
  {
  }

  lemma {:induction false} UnnamedHasNoLineBreak(code: nat)
    ensures '\n' !in Unnamed(code)
  {
    HexChars(code);
    var pad := PadStart(Hex(code), 4);
    forall k | 0 <= k < |pad|
      ensures pad[k] != '\n'
    {
      if |Hex(code)| < 4 && k < 4 - |Hex(code)| {
        assert pad[k] == '0';
      } else {
        assert pad[k] == Hex(code)[k - (|pad| - |Hex(code)|)];
      }
    }
    assert Unnamed(code) == "&none /* 0x" + pad + " */";
  }

  /** No binding text contains a line break, so each keycode makes exactly one line. */
  lemma NoLineBreak(code: nat)
    ensures '\n' !in ConvertZmkKeycode(code)
  {
    if KeycodeTable(code).Some? {
      TableHasNoLineBreak(code);
    } else {
      UnnamedHasNoLineBreak(code);
    }
  }

  /** The letter usages 0x04..0x1D name the keys A..Z in order. */
  lemma LettersInOrder(code: nat)
    requires 0x04 <= code <= 0x1D
    ensures ConvertZmkKeycode(code) == "&kp " + [('A' as int + code - 0x04) as char]
  {
  }

  /** The digit usages 0x1E..0x27 name the keys N1..N9 and then N0. */
  lemma DigitsInOrder(code: nat)
    requires 0x1E <= code <= 0x27
    ensures ConvertZmkKeycode(code) == "&kp N" + [if code == 0x27 then '0' else ('1' as int + code - 0x1E) as char]
  {
  }

  function Pow16(k: nat): (p: nat)
    ensures p >= 1
  {
    if k == 0 then 1 else 16 * Pow16(k - 1)
  }

  /** `k` zero digits. */
  lemma {:induction false} FixedHexZero(k: nat)
    ensures FixedHex(0, k) == seq(k, _ => '0')
  {
    if k > 0 {
      FixedHexZero(k - 1);
    }
  }

  /** `n.toString(16).padStart(k, '0')` is the fixed-width form when `n` fits in `k` digits. */
  lemma {:induction false} PaddedHex(n: nat, k: nat)
    requires 1 <= k && n < Pow16(k)
    ensures PadStart(Hex(n), k) == FixedHex(n, k)
  {
    if n < 16 {
      FixedHexZero(k - 1);
      assert FixedHex(n, k) == FixedHex(0, k - 1) + [HexDigit(n)];
    } else {
      assert Pow16(1) == 16;
      assert k >= 2;
      assert n / 16 < Pow16(k - 1);
      PaddedHex(n / 16, k - 1);
      var h := Hex(n / 16);
      var d := HexDigit(n % 16);
      assert Hex(n) == h + [d];
      if |h| < k - 1 {
        assert PadStart(h + [d], k) == seq(k - 1 - |h|, _ => '0') + h + [d];
      }
    }
  }

  /** The value of a lower-case hexadecimal digit. */
  function HexValue(c: char): Option<nat>
  {
    if '0' <= c <= '9' then Some(c as int - '0' as int)
    else if 'a' <= c <= 'f' then Some(c as int - 'a' as int + 10)
    else None
  }

  /** The value of a string of lower-case hexadecimal digits. */
  function ParseHex(s: string): Option<nat>
  {
    if s == [] then Some(0)
    else match (ParseHex(s[..|s| - 1]), HexValue(s[|s| - 1]))
      case (Some(high), Some(low)) => Some(high * 16 + low)
      case _ => None
  }

  /** Reading `k` digits back gives the number they were written from. */
  lemma {:induction false} FixedHexRoundTrip(n: nat, k: nat)
    requires n < Pow16(k)
    ensures ParseHex(FixedHex(n, k)) == Some(n)
  {
    if k > 0 {
      FixedHexRoundTrip(n / 16, k - 1);
      var s := FixedHex(n, k);
      assert s[..|s| - 1] == FixedHex(n / 16, k - 1);
      assert HexValue(HexDigit(n % 16)) == Some(n % 16);
    }
  }

  /** An unnamed keycode can be read back from its `&none` text. */
  lemma UnnamedRecordsCode(code: nat)
    requires code < 0x1_0000
    requires KeycodeTable(code).None?
    ensures ConvertZmkKeycode(code) == "&none /* 0x" + FixedHex(code, 4) + " */"
    ensures ParseHex(ConvertZmkKeycode(code)[11..15]) == Some(code)
  {
    assert Pow16(4) == 0x1_0000;
    PaddedHex(code, 4);
    FixedHexRoundTrip(code, 4);
    assert ConvertZmkKeycode(code)[11..15] == FixedHex(code, 4);
  }

  /** Two distinct unnamed keycodes never give the same text. */
  lemma UnnamedInjective(a: nat, b: nat)
    requires a < 0x1_0000 && b < 0x1_0000
    requires KeycodeTable(a).None? && KeycodeTable(b).None?
    requires ConvertZmkKeycode(a) == ConvertZmkKeycode(b)
    ensures a == b
  {
    UnnamedRecordsCode(a);
    UnnamedRecordsCode(b);
  }

  // ------------------------------------------------------------ hex dump

  /** `b.toString(16).padStart(2, '0')` */
  function ByteHex(b: byte): string
  {
    PadStart(Hex(b as nat), 2)
  }

  /** `hexDump`: two lower-case hex digits per byte, separated by single spaces. */
  function HexDump(data: seq<byte>): string
  {
    if data == [] then [] else Join(seq(|data|, i requires 0 <= i < |data| => ByteHex(data[i])), ' ')
  }

  lemma ByteHexDigits(b: byte)
    ensures ByteHex(b) == FixedHex(b as nat, 2)
  {
    assert Pow16(2) == 256;
    PaddedHex(b as nat, 2);
  }

  lemma {:induction false} JoinLength(parts: seq<string>, sep: char, k: nat)
    requires |parts| >= 1
    requires forall i :: 0 <= i < |parts| ==> |parts[i]| == k
    ensures |Join(parts, sep)| == (k + 1) * |parts| - 1
  {
    if |parts| > 1 {
      JoinLength(parts[1..], sep, k);
    }
  }

  /** A dump of `n` bytes is `3n - 1` characters long, and empty for no bytes. */
  lemma HexDumpLength(data: seq<byte>)
    ensures |HexDump(data)| == if data == [] then 0 else 3 * |data| - 1
  {
    if data != [] {
      var parts := seq(|data|, i requires 0 <= i < |data| => ByteHex(data[i]));
      forall i | 0 <= i < |parts|
        ensures |parts[i]| == 2
      {
        ByteHexDigits(data[i]);
      }
      JoinLength(parts, ' ', 2);
    }
  }

  /** Reads a dump back into bytes. */
  function ParseHexDump(s: string): Option<seq<byte>>
  {
    if s == [] then Some([]) else ParseBytes(Split(s, ' '))
  }

  function ParseBytes(parts: seq<string>): Option<seq<byte>>
  {
    if parts == [] then Some([])
    else
      match (ParseByte(parts[0]), ParseBytes(parts[1..]))
      case (Some(b), Some(rest)) => Some([b] + rest)
      case _ => None
  }

  function ParseByte(s: string): Option<byte>
  {
    if |s| != 2 then None
    else match ParseHex(s)
      case Some(v) => if v < 256 then Some(v as byte) else None
      case None => None
  }

  /** One byte's two digits read back as that byte. */
  lemma ParseByteHex(b: byte)
    ensures ParseByte(ByteHex(b)) == Some(b)
  {
    ByteHexDigits(b);
    assert Pow16(2) == 256;
    FixedHexRoundTrip(b as nat, 2);
  }

  lemma {:induction false} ParseBytesOf(data: seq<byte>)
    ensures ParseBytes(seq(|data|, i requires 0 <= i < |data| => ByteHex(data[i]))) == Some(data)
  {
    var parts := seq(|data|, i requires 0 <= i < |data| => ByteHex(data[i]));
    if data != [] {
      ParseBytesOf(data[1..]);
      assert parts[1..] == seq(|data[1..]|, i requires 0 <= i < |data[1..]| => ByteHex(data[1..][i]));
      ParseByteHex(data[0]);
      assert [data[0]] + data[1..] == data;
    }
  }

  /** The dump is lossless: reading it back gives the bytes it was made from. */
  lemma HexDumpRoundTrip(data: seq<byte>)
    ensures ParseHexDump(HexDump(data)) == Some(data)
  {
    if data != [] {
      var parts := seq(|data|, i requires 0 <= i < |data| => ByteHex(data[i]));
      forall i | 0 <= i < |parts|
        ensures ' ' !in parts[i]
      {
        ByteHexDigits(data[i]);
        var f := FixedHex(data[i] as nat, 2);
        assert f == FixedHex(data[i] as nat / 16, 1) + [HexDigit(data[i] as nat % 16)];
      }
      HexDumpLength(data);
      SplitOf(HexDump(data), ' ', parts);
      ParseBytesOf(data);
    }
  }
}
