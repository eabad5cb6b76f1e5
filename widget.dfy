/**
 * The home-screen widget: the colors it decodes from `#RRGGBB` strings,
 * the language bundle it picks, and which categories it shows. The app
 * group's stored values are passed in (`None` when absent or undecodable);
 * `localized` stands for the string-table lookup and `newId` for `UUID()`.
 */
module Widget {
  import opened Wrappers
  import opened DataModels
  import opened Seqs
  import Text

  // ---------------------------------------------------------------------------
  // Color(hex:)
  // ---------------------------------------------------------------------------

  /** The value of a hexadecimal digit, either case. */
  function HexDigit(c: char): Option<nat>
  {
    if '0' <= c <= '9' then Some(c as nat - '0' as nat)
    else if 'a' <= c <= 'f' then Some(c as nat - 'a' as nat + 10)
    else if 'A' <= c <= 'F' then Some(c as nat - 'A' as nat + 10)
    else None
  }

  predicate IsHex(c: char) { HexDigit(c).Some? }

  predicate AllHex(s: string) { forall i :: 0 <= i < |s| ==> IsHex(s[i]) }

  function Pow16(n: nat): (p: nat)
    ensures p >= 1
  {
    if n == 0 then 1 else 16 * Pow16(n - 1)
  }

  /** The number a string of hexadecimal digits denotes. */
  function HexValue(s: string): nat
    requires AllHex(s)
  {
    if s == [] then 0 else HexValue(s[..|s| - 1]) * 16 + HexDigit(s[|s| - 1]).value
  }

  /** `n` hexadecimal digits denote less than 16 to the `n`. */
  lemma {:induction false} HexValueBound(s: string)
    requires AllHex(s)
    ensures HexValue(s) < Pow16(|s|)
  {
    if s != [] {
      HexValueBound(s[..|s| - 1]);
    }
  }

  /** Hex digits side by side are hex digits. */
  lemma AllHexAppend(a: string, b: string)
    requires AllHex(a) && AllHex(b)
    ensures AllHex(a + b)
  {
    forall i | 0 <= i < |a + b| ensures IsHex((a + b)[i]) {
      if i < |a| { assert (a + b)[i] == a[i]; } else { assert (a + b)[i] == b[i - |a|]; }
    }
  }

  /** Digits written after others shift them up by four bits each. */
  lemma {:induction false} HexValueAppend(a: string, b: string)
    requires AllHex(a) && AllHex(b)
    ensures AllHex(a + b)
    ensures HexValue(a + b) == HexValue(a) * Pow16(|b|) + HexValue(b)
    decreases |b|
  {
    AllHexAppend(a, b);
    if b == [] {
      assert a + b == a;
    } else {
      var b' := b[..|b| - 1];
      assert (a + b)[..|a + b| - 1] == a + b';
      assert AllHex(b');
      HexValueAppend(a, b');
      var d := HexDigit(b[|b| - 1]).value;
      assert HexValue(a + b) == HexValue(a + b') * 16 + d;
      assert HexValue(b) == HexValue(b') * 16 + d;
      ShiftDigit(HexValue(a), Pow16(|b'|), HexValue(b'), d);
    }
  }

  lemma ShiftDigit(x: nat, p: nat, y: nat, d: nat)
    ensures (x * p + y) * 16 + d == x * (16 * p) + (y * 16 + d)
  {
  }

  /** The number of leading hexadecimal digits. */
  function HexRun(s: string): (n: nat)
    ensures n <= |s| && AllHex(s[..n])
  {
    if s != [] && IsHex(s[0]) then
      var n := 1 + HexRun(s[1..]);
      assert forall i :: 1 <= i < n ==> s[..n][i] == s[1..][..n - 1][i - 1];
      n
    else 0
  }

  const UInt64Max: nat := 0xFFFF_FFFF_FFFF_FFFF

  /**
   * `Scanner.scanHexInt64`: an optional `0x`/`0X`, then as many hex digits
   * as there are; no digits leaves 0, and a value too large for 64 bits
   * becomes the largest one.
   */
  function ScanHex(s: string): (v: nat)
    ensures v < Pow16(|s|)
  {
    var body := if |s| >= 2 && s[0] == '0' && (s[1] == 'x' || s[1] == 'X') then s[2..] else s;
    var digits := body[..HexRun(body)];
    HexValueBound(digits);
    PowMonotone(|digits|, |s|);
    var v := HexValue(digits);
    if v > UInt64Max then UInt64Max else v
  }

  lemma {:induction false} PowMonotone(m: nat, n: nat)
    requires m <= n
    ensures Pow16(m) <= Pow16(n)
    decreases n
  {
    if m < n {
      PowMonotone(m, n - 1);
    }
  }

  /** Alpha, red, green and blue, each meant to lie in 0..255. */
  datatype Argb = Argb(a: nat, r: nat, g: nat, b: nat)

  /** The channels for a trimmed hex string, by its length; any other length is opaque black. */
  function Channels(hex: string): (c: Argb)
  {
    var v := ScanHex(hex);
    if |hex| == 3 then Argb(255, (v / 256) * 17, ((v / 16) % 16) * 17, (v % 16) * 17)
    else if |hex| == 6 then Argb(255, v / 65536, (v / 256) % 256, v % 256)
    else if |hex| == 8 then Argb(v / 16777216, (v / 65536) % 256, (v / 256) % 256, v % 256)
    else Argb(255, 0, 0, 0)
  }

  /** `Color(hex:)`: non-alphanumerics are trimmed from both ends, then the channels are read. */
  function ColorFromHex(hex: string): Argb
  {
    Channels(Text.TrimBy(hex, Text.NonAlphanumerics))
  }

  /** Every channel of every decoded color lies in 0..255. */
  lemma ChannelsInRange(hex: string)
    ensures var c := ColorFromHex(hex);
            c.a <= 255 && c.r <= 255 && c.g <= 255 && c.b <= 255
  {
    var t := Text.TrimBy(hex, Text.NonAlphanumerics);
    assert Pow16(3) == 4096 && Pow16(6) == 16777216 && Pow16(8) == 4294967296;
  }

  /** The uppercase hex digit of a value below 16. */
  function HexChar(d: nat): (c: char)
    requires d < 16
    ensures HexDigit(c) == Some(d)
  {
    if d < 10 then ('0' as nat + d) as char else ('A' as nat + d - 10) as char
  }

  /** Two hex digits for a byte. */
  function HexByte(n: nat): (s: string)
    requires n < 256
    ensures |s| == 2 && AllHex(s) && HexValue(s) == n
  {
    var s := [HexChar(n / 16), HexChar(n % 16)];
    assert s[..1] == [HexChar(n / 16)];
    assert s[..1][..0] == [];
    assert HexValue(s[..1]) == n / 16;
    s
  }

  /** `#RRGGBB`, the form the app stores category colors in. */
  function FormatHex(r: nat, g: nat, b: nat): string
    requires r < 256 && g < 256 && b < 256
  {
    "#" + HexByte(r) + HexByte(g) + HexByte(b)
  }

  /** A color the app wrote as `#RRGGBB` is read back as the same opaque color. */
  lemma ColorRoundTrip(r: nat, g: nat, b: nat)
    requires r < 256 && g < 256 && b < 256
    ensures ColorFromHex(FormatHex(r, g, b)) == Argb(255, r, g, b)
  {
    var digits := HexByte(r) + HexByte(g) + HexByte(b);
    HexValueAppend(HexByte(r), HexByte(g));
    HexValueAppend(HexByte(r) + HexByte(g), HexByte(b));
    assert Pow16(2) == 256;
    var v := HexValue(digits);
    assert v == (r * 256 + g) * 256 + b;
    assert AllHex(digits);
    assert Text.TrimBy(FormatHex(r, g, b), Text.NonAlphanumerics) == digits by {
      TrimHashDigits(digits);
      assert FormatHex(r, g, b) == "#" + digits;
    }
    assert digits[1] != 'x' && digits[1] != 'X' by {
      assert IsHex(digits[1]);
    }
    assert HexRun(digits) == 6 by {
      HexRunAll(digits);
    }
    assert digits[..6] == digits;
    assert ScanHex(digits) == v;
    DivideBytes(r, g, b);
  }

  /** A string of hex digits is all one run. */
  lemma {:induction false} HexRunAll(s: string)
    requires AllHex(s)
    ensures HexRun(s) == |s|
  {
    if s != [] {
      HexRunAll(s[1..]);
    }
  }

  /** `#` is trimmed and hex digits are not. */
  lemma TrimHashDigits(digits: string)
    requires digits != [] && AllHex(digits)
    ensures Text.TrimBy("#" + digits, Text.NonAlphanumerics) == digits
  {
    var s := "#" + digits;
    assert s[1..] == digits;
    assert Text.IsAlphanumeric(digits[0]);
    assert Text.LeadingCount(s, Text.NonAlphanumerics) == 1 + Text.LeadingCount(digits, Text.NonAlphanumerics);
    assert Text.LeadingCount(digits, Text.NonAlphanumerics) == 0;
    assert Text.IsAlphanumeric(digits[|digits| - 1]);
    assert Text.TrailingCount(digits, Text.NonAlphanumerics) == 0;
  }

  /** Shifting and masking a packed 24-bit color gives back its bytes. */
  lemma DivideBytes(r: nat, g: nat, b: nat)
    requires r < 256 && g < 256 && b < 256
    ensures var v := (r * 256 + g) * 256 + b;
            v / 65536 == r && (v / 256) % 256 == g && v % 256 == b
  {
    var v := (r * 256 + g) * 256 + b;
    assert v == (r * 256 + g) * 256 + b;
    assert v / 256 == r * 256 + g;
    assert (v / 256) % 256 == g;
    assert v == r * 65536 + (g * 256 + b);
    assert v / 65536 == r;
  }

  // ---------------------------------------------------------------------------
  // String.localized: the language bundle
  // ---------------------------------------------------------------------------

  /**
   * The language the widget shows: the app's saved choice unless it is the
   * device setting (or absent), else the locale's language, else Japanese.
   */
  function WidgetLanguage(saved: Option<string>, localeCode: Option<string>): (code: string)
    ensures saved.Some? && saved.value != "device" ==> code == saved.value
    ensures (saved.None? || saved.value == "device") ==> code == localeCode.GetOr("ja")
  {
    if saved.Some? && saved.value != "device" then saved.value else localeCode.GetOr("ja")
  }

  /** The bundle for a language: English and Chinese have their own, everything else is Japanese. */
  function BundlePath(code: string): (path: string)
    ensures path == "en.lproj" <==> code == "en"
    ensures path == "zh-Hans.lproj" <==> code == "zh-Hans" || code == "zh"
    ensures path == "en.lproj" || path == "zh-Hans.lproj" || path == "ja.lproj"
  {
    if code == "en" then "en.lproj"
    else if code == "zh-Hans" || code == "zh" then "zh-Hans.lproj"
    else "ja.lproj"
  }

  // ---------------------------------------------------------------------------
  // loadCategories
  // ---------------------------------------------------------------------------

  function HasName(name: string): Category -> bool { (c: Category) => c.name == name }

  function Named(cats: seq<Category>): string -> bool
  {
    (name: string) => FirstWhere(cats, HasName(name)).Some?
  }

  /**
   * `names.compactMap { name in categories.first { $0.name == name } }`:
   * for each name in order, the first category of that name; names without
   * a category are dropped.
   */
  function PickByName(names: seq<string>, cats: seq<Category>): (r: seq<Category>)
    ensures |r| <= |names|
    ensures forall c :: c in r ==> c in cats
    ensures NamesOf(r) == Filter(names, Named(cats))
  {
    if names == [] then []
    else
      var rest := PickByName(names[1..], cats);
      assert names == [names[0]] + names[1..];
      match FirstWhere(cats, HasName(names[0]))
      case None => rest
      case Some(c) =>
        assert NamesOf([c] + rest) == [c.name] + NamesOf(rest);
        [c] + rest
  }

  /** When every name has a category, each position shows the category of that name. */
  lemma PickByNameAllFound(names: seq<string>, cats: seq<Category>)
    requires forall n :: n in names ==> exists c :: c in cats && c.name == n
    ensures NamesOf(PickByName(names, cats)) == names
  {
    forall i | 0 <= i < |names| ensures Named(cats)(names[i]) {
      assert names[i] in names;
      var c :| c in cats && c.name == names[i];
      assert HasName(names[i])(c);
    }
    FilterAllPass(names, Named(cats));
  }

  /** The app group's values the widget reads. */
  datatype Shared = Shared(isProVersion: bool, widgetCategories: Option<seq<string>>, categories: Option<seq<Category>>)

  const DefaultKeys: seq<string> := ["work", "personal", "idea", "other"]

  /** The default category names in the current language, as the free path looks them up. */
  function DefaultNames(localized: string -> string): seq<string>
  {
    [localized("work"), localized("personal"), localized("idea"), localized("other")]
  }

  /** `sampleCategories`: four fixed categories with localized names and no default tags. */
  function SampleCategories(localized: string -> string, newId: nat -> Uuid): (r: seq<Category>)
    ensures |r| == 4
    ensures forall i :: 0 <= i < 4 ==> r[i].name == localized(DefaultKeys[i]) && r[i].order == i && r[i].defaultTags == []
  {
    [Category(newId(0), localized("work"), "briefcase", "#007AFF", 0, []),
     Category(newId(1), localized("personal"), "house", "#34C759", 1, []),
     Category(newId(2), localized("idea"), "lightbulb", "#FF9500", 2, []),
     Category(newId(3), localized("other"), "folder", "#8E8E93", 3, [])]
  }

  /**
   * `loadCategories`: a Pro user's selection in its own order; otherwise the
   * user's categories whose names are the default names, at most four;
   * without the app group, or with nothing stored, the sample categories.
   */
  function LoadCategories(shared: Option<Shared>, localized: string -> string, newId: nat -> Uuid): (r: seq<Category>)
    ensures shared.None? ==> r == SampleCategories(localized, newId)
    ensures shared.Some? && shared.value.isProVersion && shared.value.widgetCategories.Some? && shared.value.categories.Some?
            ==> NamesOf(r) == Filter(shared.value.widgetCategories.value, Named(shared.value.categories.value))
    ensures shared.Some? && shared.value.categories.None? ==> r == SampleCategories(localized, newId)
    ensures shared.Some? && !(shared.value.isProVersion && shared.value.widgetCategories.Some?)
            && shared.value.categories.Some?
            ==> |r| <= 4 && NamesOf(r) == Filter(DefaultNames(localized), Named(shared.value.categories.value))
    ensures shared.Some? && shared.value.categories.Some? ==> forall c :: c in r ==> c in shared.value.categories.value
  {
    if shared.None? then SampleCategories(localized, newId)
    else
      var s := shared.value;
      if s.isProVersion && s.widgetCategories.Some? && s.categories.Some? then
        PickByName(s.widgetCategories.value, s.categories.value)
      else if s.categories.Some? then
        FreePrefixNoOp(DefaultNames(localized), s.categories.value);
        Prefix(PickByName(DefaultNames(localized), s.categories.value), 4)
      else SampleCategories(localized, newId)
  }

  /** On the free path the `prefix(4)` never cuts anything: there are only four default names. */
  lemma FreePrefixNoOp(defaultNames: seq<string>, cats: seq<Category>)
    requires |defaultNames| == 4
    ensures Prefix(PickByName(defaultNames, cats), 4) == PickByName(defaultNames, cats)
  {
  }
}
