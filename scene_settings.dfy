/**
 * The scene-settings file: a line-oriented `key=value` format with `[Section]`
 * headers, written by `Save` and read back by `Load`.
 *
 * Float-valued settings are carried as the text that the file holds for them
 * (textual float formatting and `stof` are not modelled); booleans and the
 * kernel size go through a model of `stoi`.
 */
module Settings {
  import opened Wrappers
  import opened SettingsKeys

  /** The settings record: one typed value per key. */
  type SceneSettings = map<Key, Value>

  predicate WellTyped(s: SceneSettings) {
    forall k: Key :: k in s && Fits(k, s[k])
  }

  // ---------------------------------------------------------------------
  // Integer text (std::stoi and the decimal form the stream writes)
  // ---------------------------------------------------------------------

  /** The C locale's white space: space and the control characters 9 to 13. */
  predicate IsSpace(c: char) {
    c == ' ' || 9 <= c as int <= 13
  }

  predicate IsDigit(c: char) {
    '0' <= c <= '9'
  }

  function TrimLeadingSpace(s: string): string {
    if |s| > 0 && IsSpace(s[0]) then TrimLeadingSpace(s[1..]) else s
  }

  /** Trimming drops exactly the leading run of white space: what is left is a suffix that starts with no space. */
  lemma {:induction false} TrimLeadingSpaceDropsSpace(s: string)
    ensures |TrimLeadingSpace(s)| <= |s| && TrimLeadingSpace(s) == s[|s| - |TrimLeadingSpace(s)|..]
    ensures forall i :: 0 <= i < |s| - |TrimLeadingSpace(s)| ==> IsSpace(s[i])
    ensures |TrimLeadingSpace(s)| > 0 ==> !IsSpace(TrimLeadingSpace(s)[0])
  {
    if |s| > 0 && IsSpace(s[0]) {
      TrimLeadingSpaceDropsSpace(s[1..]);
      forall i | 0 <= i < |s| - |TrimLeadingSpace(s)| ensures IsSpace(s[i]) {
        if i > 0 { assert s[i] == s[1..][i - 1]; }
      }
    }
  }

  /** The length of the run of digits that starts `s`. */
  function DigitRun(s: string): (n: nat)
    ensures n <= |s|
  {
    if |s| > 0 && IsDigit(s[0]) then 1 + DigitRun(s[1..]) else 0
  }

  /** The run is all digits and stops at the first non-digit. */
  lemma {:induction false} DigitRunSpansDigits(s: string)
    ensures forall i :: 0 <= i < DigitRun(s) ==> IsDigit(s[i])
    ensures DigitRun(s) < |s| ==> !IsDigit(s[DigitRun(s)])
  {
    if |s| > 0 && IsDigit(s[0]) {
      DigitRunSpansDigits(s[1..]);
      forall i | 0 <= i < DigitRun(s) ensures IsDigit(s[i]) {
        if i > 0 { assert s[i] == s[1..][i - 1]; }
      }
    }
  }

  /** The number a string of decimal digits denotes, most significant digit first. */
  function DigitsValue(ds: string): int {
    if ds == [] then 0
    else 10 * DigitsValue(ds[..|ds| - 1]) + (ds[|ds| - 1] as int - '0' as int)
  }

  /**
   * std::stoi in base 10: leading white space, an optional sign, at least one
   * digit, and whatever follows the digits is ignored. No digits, or a value
   * outside the 32-bit range, makes it throw: `None`.
   */
  function ParseInt(value: string): Option<Int32> {
    var t := TrimLeadingSpace(value);
    if |t| > 0 && (t[0] == '-' || t[0] == '+') then ParseMagnitude(t[1..], t[0] == '-')
    else ParseMagnitude(t, false)
  }

  /** The digits after the sign: their value, negated if the sign was `-`, when it fits. */
  function ParseMagnitude(body: string, negative: bool): Option<Int32> {
    var n := DigitRun(body);
    if n == 0 then None
    else
      var magnitude := DigitsValue(body[..n]);
      var v := if negative then -magnitude else magnitude;
      if -0x8000_0000 <= v < 0x8000_0000 then Some(v) else None
  }

  /** The decimal digits of `n`, most significant first. */
  function NatDigits(n: nat): string {
    var last := ('0' as int + n % 10) as char;
    if n < 10 then [last] else NatDigits(n / 10) + [last]
  }

  /** How the stream writes an integer: a minus sign for negatives, then the digits. */
  function IntToString(n: int): string {
    if n < 0 then "-" + NatDigits(-n) else NatDigits(n)
  }

  lemma {:induction false} NatDigitsAreDigits(n: nat)
    ensures |NatDigits(n)| > 0
    ensures forall i :: 0 <= i < |NatDigits(n)| ==> IsDigit(NatDigits(n)[i])
  {
    if n >= 10 {
      NatDigitsAreDigits(n / 10);
    }
  }

  lemma {:induction false} NatDigitsValue(n: nat)
    ensures DigitsValue(NatDigits(n)) == n
  {
    var ds := NatDigits(n);
    if n >= 10 {
      NatDigitsValue(n / 10);
      assert ds[..|ds| - 1] == NatDigits(n / 10);
    }
  }

  lemma {:induction false} DigitRunOfDigits(ds: string, rest: string)
    requires forall i :: 0 <= i < |ds| ==> IsDigit(ds[i])
    requires rest == [] || !IsDigit(rest[0])
    ensures DigitRun(ds + rest) == |ds|
  {
    if ds != [] {
      assert (ds + rest)[1..] == ds[1..] + rest;
      DigitRunOfDigits(ds[1..], rest);
    } else {
      assert ds + rest == rest;
    }
  }

  /** After the sign, a digit run that is exactly `ds` reads as the value of `ds`, when it fits. */
  lemma ParseMagnitudeOfDigits(ds: string, rest: string, negative: bool)
    requires |ds| > 0 && DigitRun(ds + rest) == |ds|
    requires var v := if negative then -DigitsValue(ds) else DigitsValue(ds);
             -0x8000_0000 <= v < 0x8000_0000
    ensures ParseMagnitude(ds + rest, negative) ==
            Some(if negative then -DigitsValue(ds) else DigitsValue(ds))
  {
    assert (ds + rest)[..|ds|] == ds;
  }

  /** Text that starts with a `-` is read as a negative magnitude. */
  lemma ParseIntNegative(body: string)
    ensures ParseInt(['-'] + body) == ParseMagnitude(body, true)
  {
    var t := ['-'] + body;
    assert t[0] == '-' && !IsSpace(t[0]);
    assert t[1..] == body;
  }

  /** Text that starts with a digit is read as a non-negative magnitude. */
  lemma ParseIntUnsigned(body: string)
    requires |body| > 0 && IsDigit(body[0])
    ensures ParseInt(body) == ParseMagnitude(body, false)
  {
  }

  lemma ParseNegativeWritten(m: nat, rest: string)
    requires 0 < m <= 0x8000_0000
    requires rest == [] || !IsDigit(rest[0])
    ensures ParseInt("-" + NatDigits(m) + rest) == Some(-(m as int))
  {
    var ds := NatDigits(m);
    NatDigitsAreDigits(m);
    NatDigitsValue(m);
    DigitRunOfDigits(ds, rest);
    ParseMagnitudeOfDigits(ds, rest, true);
    assert "-" + ds + rest == ['-'] + (ds + rest);
    ParseIntNegative(ds + rest);
  }

  lemma ParseUnsignedWritten(m: nat, rest: string)
    requires m < 0x8000_0000
    requires rest == [] || !IsDigit(rest[0])
    ensures ParseInt(NatDigits(m) + rest) == Some(m)
  {
    var ds := NatDigits(m);
    NatDigitsAreDigits(m);
    NatDigitsValue(m);
    DigitRunOfDigits(ds, rest);
    ParseMagnitudeOfDigits(ds, rest, false);
    assert (ds + rest)[0] == ds[0];
    ParseIntUnsigned(ds + rest);
  }

  /**
   * stoi reads back what the stream wrote, for every 32-bit value, and ignores
   * any non-digit text after it.
   */
  lemma ParseIntOfWritten(n: Int32, rest: string)
    requires rest == [] || !IsDigit(rest[0])
    ensures ParseInt(IntToString(n) + rest) == Some(n)
  {
    if n < 0 {
      ParseNegativeWritten(-(n as int), rest);
    } else {
      ParseUnsignedWritten(n, rest);
    }
  }

  /** Leading white space does not change what stoi reads. */
  lemma ParseIntSkipsSpace(c: char, value: string)
    requires IsSpace(c)
    ensures ParseInt([c] + value) == ParseInt(value)
  {
    assert ([c] + value)[1..] == value;
  }

  // ---------------------------------------------------------------------
  // Lines (std::getline) and the `key=value` grammar
  // ---------------------------------------------------------------------

  /** The position of the first `c` in `s`, if any. */
  function IndexOf(s: string, c: char): (r: Option<nat>)
    ensures r.Some? ==> r.value < |s| && s[r.value] == c && c !in s[..r.value]
    ensures r.None? ==> c !in s
  {
    if s == [] then None
    else if s[0] == c then Some(0)
    else match IndexOf(s[1..], c)
      case None => None
      case Some(i) =>
        assert s[..i + 1] == [s[0]] + s[1..][..i];
        Some(i + 1)
  }

  /** The first occurrence is the one `IndexOf` finds. */
  lemma {:induction false} IndexOfLocates(s: string, c: char, i: nat)
    requires i < |s| && s[i] == c && c !in s[..i]
    ensures IndexOf(s, c) == Some(i)
  {
    if i > 0 {
      assert s[0] == s[..i][0];
      assert s[1..][..i - 1] == s[..i][1..];
      IndexOfLocates(s[1..], c, i - 1);
    }
  }

  /** In `a + [c] + b` with no `c` in `a`, the first `c` follows `a`. */
  lemma IndexAfterPrefix(a: string, c: char, b: string)
    requires c !in a
    ensures IndexOf(a + [c] + b, c) == Some(|a|)
  {
    var s := a + [c] + b;
    assert s[..|a|] == a;
    IndexOfLocates(s, c, |a|);
  }

  /** One getline call on non-empty input: the text up to the first newline, and what follows it. */
  function NextLine(text: string): (r: (string, string))
    requires text != []
    ensures |r.1| < |text| && '\n' !in r.0
    ensures text == r.0 + "\n" + r.1 || (text == r.0 && r.1 == [])
  {
    match IndexOf(text, '\n')
    case None => (text, [])
    case Some(i) =>
      assert text == text[..i] + "\n" + text[i + 1..];
      (text[..i], text[i + 1..])
  }

  /** The lines getline produces, in order; a final newline does not start an extra line. */
  function Lines(text: string): (ls: seq<string>)
    decreases |text|
  {
    if text == [] then [] else [NextLine(text).0] + Lines(NextLine(text).1)
  }

  /** The text of lines each followed by a newline, as `std::endl` writes them. */
  function Terminated(ls: seq<string>): string {
    if ls == [] then [] else ls[0] + "\n" + Terminated(ls[1..])
  }

  /** Splitting newline-terminated lines gives the lines back. */
  lemma {:induction false} LinesOfTerminated(ls: seq<string>)
    requires forall i :: 0 <= i < |ls| ==> '\n' !in ls[i]
    ensures Lines(Terminated(ls)) == ls
  {
    if ls != [] {
      var rest := Terminated(ls[1..]);
      var text := Terminated(ls);
      assert text == ls[0] + "\n" + rest;
      IndexAfterPrefix(ls[0], '\n', rest);
      var i := |ls[0]|;
      assert text[..i] == ls[0] && text[i + 1..] == rest;
      assert NextLine(text) == (ls[0], rest);
      LinesOfTerminated(ls[1..]);
    }
  }

  /** Joining the lines back restores the text, up to a final newline that getline drops. */
  lemma {:induction false} TerminatedLines(text: string)
    ensures Terminated(Lines(text)) == text ||
            (text != [] && text[|text| - 1] != '\n' && Terminated(Lines(text)) == text + "\n")
    decreases |text|
  {
    if text != [] {
      var line := NextLine(text).0;
      var rest := NextLine(text).1;
      assert Terminated(Lines(text)) == line + "\n" + Terminated(Lines(rest));
      match IndexOf(text, '\n') {
        case None =>
          assert rest == [] && line == text;
          assert text[|text| - 1] in text;
        case Some(i) =>
          assert text == line + "\n" + rest;
          TerminatedLines(rest);
          if Terminated(Lines(rest)) != rest {
            assert text + "\n" == line + "\n" + (rest + "\n");
            assert text[|text| - 1] == rest[|rest| - 1];
          }
      }
    }
  }

  /**
   * The parse of one line: `None` for an empty line, a section header or a
   * line without `=`; otherwise the key before the first `=` and the value
   * after it.
   */
  function SplitLine(line: string): (r: Option<(string, string)>)
    ensures r.None? <==> |line| == 0 || line[0] == '[' || '=' !in line
    ensures r.Some? ==> line == r.value.0 + "=" + r.value.1 && '=' !in r.value.0
  {
    if |line| == 0 || line[0] == '[' then None
    else match IndexOf(line, '=')
      case None => None
      case Some(eq) =>
        assert line == line[..eq] + "=" + line[eq + 1..];
        Some((line[..eq], line[eq + 1..]))
  }

  /** The conversion a field's type calls for: text is kept, booleans are `stoi(value) != 0`. */
  function Convert(kind: Kind, value: string): (r: Option<Value>)
    ensures r.Some? ==> HasKind(r.value, kind)
  {
    match kind
    case FloatKind => Some(Text(value))
    case BoolKind => (match ParseInt(value) case None => None case Some(n) => Some(Flag(n != 0)))
    case IntKind => (match ParseInt(value) case None => None case Some(n) => Some(Count(n)))
  }

  /** One loop iteration: the new settings, or `None` when a conversion throws. */
  function ApplyLine(s: SceneSettings, line: string): Option<SceneSettings> {
    match SplitLine(line)
    case None => Some(s)
    case Some((key, value)) =>
      match KeyOf(key)
      case None => Some(s)
      case Some(k) =>
        match Convert(KindOf(k), value)
        case None => None
        case Some(v) => Some(s[k := v])
  }

  /** What `load` does with the settings and whether it returns. */
  datatype LoadOutcome =
    | NotOpened                              // returns false, settings untouched
    | Loaded(settings: SceneSettings)        // returns true
    | ConversionFailed(partial: SceneSettings)  // stoi throws; earlier lines already applied

  /** The whole loop over the lines, front to back. */
  function ApplyLines(s: SceneSettings, lines: seq<string>): (r: LoadOutcome)
    ensures !r.NotOpened?
    decreases |lines|
  {
    if lines == [] then Loaded(s)
    else match ApplyLine(s, lines[0])
      case None => ConversionFailed(s)
      case Some(t) => ApplyLines(t, lines[1..])
  }

  /** Parses the file's text line by line; `file` is `None` when it cannot be opened. */
  method Load(settings: SceneSettings, file: Option<string>) returns (outcome: LoadOutcome)
    ensures file.None? ==> outcome == NotOpened
    ensures file.Some? ==> outcome == ApplyLines(settings, Lines(file.value))
  {
    if file.None? {
      return NotOpened;
    }
    var current := settings;
    var rest := file.value;
    while rest != []
      invariant ApplyLines(settings, Lines(file.value)) == ApplyLines(current, Lines(rest))
      decreases |rest|
    {
      var (line, remainder) := NextLine(rest);
      match ApplyLine(current, line) {
        case None =>
          return ConversionFailed(current);
        case Some(next) =>
          current := next;
      }
      rest := remainder;
    }
    return Loaded(current);
  }

  // ---------------------------------------------------------------------
  // Properties of the loop
  // ---------------------------------------------------------------------

  /** Empty lines, headers, lines without `=` and unknown keys change nothing. */
  lemma SkippedLinesChangeNothing(s: SceneSettings, line: string)
    requires |line| == 0 || line[0] == '[' || '=' !in line ||
             KeyOf(SplitLine(line).value.0).None?
    ensures ApplyLine(s, line) == Some(s)
  {
  }

  /** A recognised line changes its own key and no other. */
  lemma LineChangesOnlyItsKey(s: SceneSettings, line: string, k: Key)
    requires SplitLine(line).Some? && KeyOf(SplitLine(line).value.0) == Some(k)
    requires ApplyLine(s, line).Some?
    ensures forall other :: other != k ==>
              (other in ApplyLine(s, line).value <==> other in s) &&
              (other in s ==> ApplyLine(s, line).value[other] == s[other])
    ensures k in ApplyLine(s, line).value
  {
  }

  /** Loading keeps a well-typed record well typed, whatever the file holds. */
  lemma {:induction false} ApplyLinesWellTyped(s: SceneSettings, lines: seq<string>)
    requires WellTyped(s)
    ensures ApplyLines(s, lines).Loaded? ==> WellTyped(ApplyLines(s, lines).settings)
    ensures ApplyLines(s, lines).ConversionFailed? ==> WellTyped(ApplyLines(s, lines).partial)
  {
    if lines != [] {
      match ApplyLine(s, lines[0]) {
        case None =>
        case Some(t) =>
          assert WellTyped(t);
          ApplyLinesWellTyped(t, lines[1..]);
      }
    }
  }

  /** The loop over a concatenation runs the second part from where the first left off. */
  lemma {:induction false} ApplyLinesAppend(s: SceneSettings, a: seq<string>, b: seq<string>)
    ensures ApplyLines(s, a + b) ==
            match ApplyLines(s, a)
            case Loaded(t) => ApplyLines(t, b)
            case other => other
    decreases |a|
  {
    if a != [] {
      assert (a + b)[0] == a[0] && (a + b)[1..] == a[1..] + b;
      match ApplyLine(s, a[0]) {
        case None =>
        case Some(t) => ApplyLinesAppend(t, a[1..], b);
      }
    } else {
      assert a + b == b;
    }
  }

  /** A line naming key `k` assigns `k` the converted value, or throws when conversion fails. */
  lemma RecognisedLine(s: SceneSettings, line: string, k: Key)
    requires SplitLine(line).Some? && KeyOf(SplitLine(line).value.0) == Some(k)
    ensures ApplyLine(s, line) ==
            match Convert(KindOf(k), SplitLine(line).value.1)
            case None => None
            case Some(v) => Some(s[k := v])
  {
  }

  /** A run of one line: that line's result. */
  lemma SingleLine(s: SceneSettings, line: string)
    ensures ApplyLines(s, [line]) ==
            match ApplyLine(s, line)
            case None => ConversionFailed(s)
            case Some(t) => Loaded(t)
  {
    var none: seq<string> := [];
    assert [line][1..] == none;
  }

  /** Of two lines that set the same key, the later one wins. */
  lemma LaterLineWins(s: SceneSettings, first: string, second: string, k: Key)
    requires SplitLine(first).Some? && KeyOf(SplitLine(first).value.0) == Some(k)
    requires SplitLine(second).Some? && KeyOf(SplitLine(second).value.0) == Some(k)
    requires ApplyLine(s, first).Some? && ApplyLine(s, second).Some?
    ensures ApplyLines(s, [first, second]) == ApplyLines(s, [second])
  {
    RecognisedLine(s, first, k);
    RecognisedLine(s, second, k);
    var t := ApplyLine(s, first).value;
    var v := Convert(KindOf(k), SplitLine(second).value.1).value;
    RecognisedLine(t, second, k);
    assert t[k := v] == s[k := v];
    assert [first, second][1..] == [second];
    SingleLine(t, second);
    SingleLine(s, second);
  }

  // ---------------------------------------------------------------------
  // The writer and the round trip
  // ---------------------------------------------------------------------

  /** How a value is written: its text, the integer 1 or 0 for booleans, decimal for the kernel size. */
  function Render(v: Value): string {
    match v
    case Text(t) => t
    case Flag(b) => IntToString(if b then 1 else 0)
    case Count(n) => IntToString(n)
  }

  function KeyLine(s: SceneSettings, k: Key): string
    requires WellTyped(s)
  {
    KeyName(k) + "=" + Render(s[k])
  }

  function KeyLines(s: SceneSettings, ks: seq<Key>): seq<string>
    requires WellTyped(s)
  {
    if ks == [] then [] else [KeyLine(s, ks[0])] + KeyLines(s, ks[1..])
  }

  /** The sections' lines: a blank line before every header but the first, then `[name]`, then the keys. */
  function SectionLines(s: SceneSettings, secs: seq<Section>, first: bool): seq<string>
    requires WellTyped(s)
  {
    if secs == [] then []
    else (if first then [] else [""]) + ["[" + secs[0].name + "]"]
         + KeyLines(s, secs[0].keys) + SectionLines(s, secs[1..], false)
  }

  /** The lines `save` writes. */
  function SaveLines(s: SceneSettings): seq<string>
    requires WellTyped(s)
  {
    SectionLines(s, Sections, true)
  }

  /** The text `save` writes: every line ended by a newline. */
  function SaveText(s: SceneSettings): string
    requires WellTyped(s)
  {
    Terminated(SaveLines(s))
  }

  /** Float texts the file can hold: none contains a newline. */
  predicate SingleLineTexts(s: SceneSettings) {
    forall k :: k in s && s[k].Text? ==> '\n' !in s[k].text
  }

  /** A written value converts back to itself. */
  lemma ConvertRender(kind: Kind, v: Value)
    requires HasKind(v, kind)
    ensures Convert(kind, Render(v)) == Some(v)
  {
    match v {
      case Text(_) =>
      case Flag(b) =>
        var n: Int32 := if b then 1 else 0;
        ParseIntOfWritten(n, []);
        assert IntToString(n) + [] == IntToString(n);
      case Count(n) =>
        ParseIntOfWritten(n, []);
        assert IntToString(n) + [] == IntToString(n);
    }
  }

  /** A line `name=value` whose name has no `=` splits into exactly that name and value. */
  lemma SplitPlainLine(name: string, value: string)
    requires PlainName(name)
    ensures SplitLine(name + "=" + value) == Some((name, value))
  {
    var line := name + "=" + value;
    IndexAfterPrefix(name, '=', value);
    assert line[0] == name[0];
    assert line[..|name|] == name && line[|name| + 1..] == value;
  }

  /** Reading the line written for key `k` sets `k` to the saved value. */
  lemma ApplyKeyLine(t: SceneSettings, s: SceneSettings, k: Key)
    requires WellTyped(s)
    ensures ApplyLine(t, KeyLine(s, k)) == Some(t[k := s[k]])
  {
    KeyOfInvertsKeyName(k);
    SplitPlainLine(KeyName(k), Render(s[k]));
    ConvertRender(KindOf(k), s[k]);
  }

  /** Reading the lines written for `ks` sets each of them to the saved value and nothing else. */
  lemma {:induction false} ApplyKeyLines(t: SceneSettings, s: SceneSettings, ks: seq<Key>)
    requires WellTyped(s) && WellTyped(t)
    ensures ApplyLines(t, KeyLines(s, ks)).Loaded?
    ensures var r := ApplyLines(t, KeyLines(s, ks)).settings;
            WellTyped(r) && forall k :: r[k] == if k in ks then s[k] else t[k]
  {
    if ks != [] {
      ApplyKeyLine(t, s, ks[0]);
      var t' := t[ks[0] := s[ks[0]]];
      ApplyKeyLines(t', s, ks[1..]);
      var r := ApplyLines(t, KeyLines(s, ks)).settings;
      forall k ensures r[k] == if k in ks then s[k] else t[k] {
        assert k in ks <==> k == ks[0] || k in ks[1..];
      }
    }
  }

  /** The blank separator and the `[name]` header change nothing. */
  lemma SectionLeadSkipped(t: SceneSettings, name: string, first: bool)
    ensures ApplyLines(t, (if first then [] else [""]) + ["[" + name + "]"]) == Loaded(t)
  {
    var header := "[" + name + "]";
    assert header[0] == '[';
    var none: seq<string> := [];
    assert [header][1..] == none;
    assert ApplyLines(t, [header]) == Loaded(t);
    if !first {
      assert ([""] + [header])[1..] == [header];
    }
  }

  /** Reading one section's lines, followed by `rest`, comes to reading its keys and then `rest`. */
  lemma ApplyOneSection(t: SceneSettings, s: SceneSettings, sec: Section, first: bool, rest: seq<string>)
    requires WellTyped(s) && WellTyped(t)
    ensures ApplyLines(t, KeyLines(s, sec.keys)).Loaded?
    ensures var m := ApplyLines(t, KeyLines(s, sec.keys)).settings;
            && WellTyped(m) && (forall k :: m[k] == if k in sec.keys then s[k] else t[k])
            && ApplyLines(t, (if first then [] else [""]) + ["[" + sec.name + "]"]
                             + KeyLines(s, sec.keys) + rest) == ApplyLines(m, rest)
  {
    var lead := (if first then [] else [""]) + ["[" + sec.name + "]"];
    var keys := KeyLines(s, sec.keys);
    assert lead + keys + rest == lead + (keys + rest);
    SectionLeadSkipped(t, sec.name, first);
    ApplyLinesAppend(t, lead, keys + rest);
    ApplyKeyLines(t, s, sec.keys);
    ApplyLinesAppend(t, keys, rest);
  }

  /** Reading the lines of the sections sets every key they list and nothing else. */
  lemma {:induction false} ApplySectionLines(t: SceneSettings, s: SceneSettings, secs: seq<Section>, first: bool)
    requires WellTyped(s) && WellTyped(t)
    ensures ApplyLines(t, SectionLines(s, secs, first)).Loaded?
    ensures var r := ApplyLines(t, SectionLines(s, secs, first)).settings;
            WellTyped(r) && forall k :: r[k] == if k in KeysOf(secs) then s[k] else t[k]
  {
    if secs != [] {
      ApplyOneSection(t, s, secs[0], first, SectionLines(s, secs[1..], false));
      var m := ApplyLines(t, KeyLines(s, secs[0].keys)).settings;
      ApplySectionLines(m, s, secs[1..], false);
      var r := ApplyLines(t, SectionLines(s, secs, first)).settings;
      forall k ensures r[k] == if k in KeysOf(secs) then s[k] else t[k] {
        assert k in KeysOf(secs) <==> k in secs[0].keys || k in KeysOf(secs[1..]);
      }
    }
  }

  /** Every line `save` writes lacks a newline, when the float texts do. */
  lemma {:induction false} SectionLinesSingle(s: SceneSettings, secs: seq<Section>, first: bool)
    requires WellTyped(s) && SingleLineTexts(s)
    requires forall i :: 0 <= i < |secs| ==> '\n' !in secs[i].name
    ensures forall i :: 0 <= i < |SectionLines(s, secs, first)| ==> '\n' !in SectionLines(s, secs, first)[i]
  {
    if secs != [] {
      KeyLinesSingle(s, secs[0].keys);
      SectionLinesSingle(s, secs[1..], false);
      var lead := (if first then [] else [""]) + ["[" + secs[0].name + "]"];
      assert '\n' !in "[" + secs[0].name + "]";
      assert SectionLines(s, secs, first) ==
             lead + KeyLines(s, secs[0].keys) + SectionLines(s, secs[1..], false);
    }
  }

  lemma {:induction false} KeyLinesSingle(s: SceneSettings, ks: seq<Key>)
    requires WellTyped(s) && SingleLineTexts(s)
    ensures forall i :: 0 <= i < |KeyLines(s, ks)| ==> '\n' !in KeyLines(s, ks)[i]
  {
    if ks != [] {
      var k := ks[0];
      KeyOfInvertsKeyName(k);
      assert '\n' !in Render(s[k]) by {
        match s[k] {
          case Text(_) =>
          case Flag(_) =>
          case Count(n) =>
            var m: nat := if n < 0 then -(n as int) else n;
            NatDigitsAreDigits(m);
            var ds := NatDigits(m);
            assert forall i :: 0 <= i < |ds| ==> ds[i] != '\n';
            assert Render(s[k]) == (if n < 0 then "-" + ds else ds);
        }
      }
      KeyLinesSingle(s, ks[1..]);
    }
  }

  /**
   * Saving then loading gives back exactly the saved settings, whatever the
   * settings were before the load: booleans, the kernel size and every float
   * text round-trip.
   */
  lemma SaveLoadRoundTrip(before: SceneSettings, s: SceneSettings)
    requires WellTyped(before) && WellTyped(s) && SingleLineTexts(s)
    ensures ApplyLines(before, Lines(SaveText(s))) == Loaded(s)
  {
    SectionNamesSingleLine();
    SectionLinesSingle(s, Sections, true);
    LinesOfTerminated(SaveLines(s));
    assert Lines(SaveText(s)) == SaveLines(s);
    SavedLinesReload(before, s);
  }

  /** Reading the saved lines, before they are joined into a file, sets every key to its saved value. */
  lemma SavedLinesReload(before: SceneSettings, s: SceneSettings)
    requires WellTyped(before) && WellTyped(s)
    ensures ApplyLines(before, SaveLines(s)) == Loaded(s)
  {
    ApplySectionLines(before, s, Sections, true);
    var r := ApplyLines(before, SaveLines(s)).settings;
    forall k ensures r[k] == s[k] {
      EveryKeySaved(k);
    }
    SameOnEveryKey(r, s);
  }

  /** Two settings records that hold every key agree when they agree key by key. */
  lemma SameOnEveryKey(r: SceneSettings, s: SceneSettings)
    requires WellTyped(r) && WellTyped(s) && forall k :: r[k] == s[k]
    ensures r == s
  {
    assert r.Keys == s.Keys;
  }
}
