/** The metric line protocol of src/lib/metric_ingest.py and src/lib/metrics.py:
    escaping and truncation of dimension values, printing of the dimension section,
    and a reader for the printed form. */
module LineProtocol {
  import opened Wrappers
  import opened Sequences

  /** Python's `text[:end]`, also for an `end` past either end of the text. */
  function SliceTo(text: string, end: int): (slice: string)
    ensures slice <= text
    ensures end >= 0 ==> |slice| == if |text| < end then |text| else end
    ensures end < 0 ==> |slice| == if |text| < -end then 0 else |text| + end
  {
    if end >= |text| then text
    else if end >= 0 then text[..end]
    else if |text| + end >= 0 then text[..|text| + end]
    else ""
  }

  /** `text.replace(target, replacement)` for a one-character `target`. */
  function Replace(text: string, target: char, replacement: string): string {
    if text == "" then ""
    else
      var last := text[|text| - 1];
      Replace(text[..|text| - 1], target, replacement) + (if last == target then replacement else [last])
  }

  function SanitizeDimensionValue(rawValue: string): string {
    var sanitized := Replace(Replace(Replace(rawValue, '\r', " "), '\n', " "), '\t', " ");
    Replace(Replace(sanitized, '\\', "\\\\"), '"', "\\\"")
  }

  /** The length of the run of backslashes at the end of the text:
      `len(text) - len(text.rstrip("\\"))`. */
  function TrailingBackslashes(text: string): (count: nat)
    ensures count <= |text|
  {
    if text == "" || text[|text| - 1] != '\\' then 0
    else 1 + TrailingBackslashes(text[..|text| - 1])
  }

  function TruncateEscapedDimensionValue(escapedValue: string, maxLength: int): string {
    if |escapedValue| <= maxLength then escapedValue
    else DropOddBackslash(SliceTo(escapedValue, maxLength))
  }

  /** The text without its last character when it ends in an odd run of backslashes. */
  function DropOddBackslash(text: string): string {
    if TrailingBackslashes(text) % 2 == 1 then text[..|text| - 1] else text
  }

  // ---- What the printed value means ----

  /** Control characters that would break the line become spaces. */
  function Normalise(rawValue: string): (text: string)
    ensures |text| == |rawValue|
    ensures forall i :: 0 <= i < |text| ==> text[i] == if rawValue[i] in "\r\n\t" then ' ' else rawValue[i]
  {
    if rawValue == "" then ""
    else
      var last := rawValue[|rawValue| - 1];
      Normalise(rawValue[..|rawValue| - 1]) + [if last in "\r\n\t" then ' ' else last]
  }

  function EscapeChar(c: char): string {
    if c == '\\' || c == '"' then ['\\', c] else [c]
  }

  /** Every quote and backslash preceded by a backslash. */
  function Escape(text: string): (escaped: string)
    ensures |text| <= |escaped|
  {
    if text == "" then "" else Escape(text[..|text| - 1]) + EscapeChar(text[|text| - 1])
  }

  /** A reader of quoted strings: the text up to the first quote that no backslash
      escapes, unescaped, and what follows that quote. */
  function ReadQuoted(input: string): Option<(string, string)> {
    if input == "" then None
    else if input[0] == '"' then Some(("", input[1..]))
    else if input[0] == '\\' then
      if |input| == 1 then None
      else match ReadQuoted(input[2..])
           case None => None
           case Some((text, rest)) => Some(([input[1]] + text, rest))
    else match ReadQuoted(input[1..])
         case None => None
         case Some((text, rest)) => Some(([input[0]] + text, rest))
  }

  /** How many characters the truncated text may have. */
  function Budget(length: nat, maxLength: int): nat {
    if length <= maxLength then length
    else if maxLength >= 0 then maxLength
    else if length + maxLength >= 0 then length + maxLength
    else 0
  }

  lemma {:induction false} ReplaceAppend(a: string, c: char, target: char, replacement: string)
    ensures Replace(a + [c], target, replacement)
            == Replace(a, target, replacement) + (if c == target then replacement else [c])
  {
    assert (a + [c])[..|a|] == a;
  }

  lemma {:induction false} NormaliseIsReplace(rawValue: string)
    ensures Replace(Replace(Replace(rawValue, '\r', " "), '\n', " "), '\t', " ") == Normalise(rawValue)
  {
    if rawValue != "" {
      var init, c := rawValue[..|rawValue| - 1], rawValue[|rawValue| - 1];
      NormaliseIsReplace(init);
      var r1 := Replace(init, '\r', " ");
      var c1 := if c == '\r' then ' ' else c;
      assert Replace(rawValue, '\r', " ") == r1 + [c1];
      ReplaceAppend(r1, c1, '\n', " ");
      var c2 := if c1 == '\n' then ' ' else c1;
      ReplaceAppend(Replace(r1, '\n', " "), c2, '\t', " ");
    }
  }

  lemma {:induction false} EscapeIsReplace(text: string)
    ensures Replace(Replace(text, '\\', "\\\\"), '"', "\\\"") == Escape(text)
  {
    if text != "" {
      var init, c := text[..|text| - 1], text[|text| - 1];
      EscapeIsReplace(init);
      var r := Replace(init, '\\', "\\\\");
      if c == '\\' {
        assert r + "\\\\" == (r + ['\\']) + ['\\'];
        ReplaceAppend(r, '\\', '"', "\\\"");
        ReplaceAppend(r + ['\\'], '\\', '"', "\\\"");
      } else {
        ReplaceAppend(r, c, '"', "\\\"");
      }
    }
  }

  /** The chain of replacements is exactly: normalise, then escape. */
  lemma SanitizeIsEscape(rawValue: string)
    ensures SanitizeDimensionValue(rawValue) == Escape(Normalise(rawValue))
  {
    NormaliseIsReplace(rawValue);
    EscapeIsReplace(Normalise(rawValue));
  }

  lemma TrailingAfter(text: string, c: char)
    ensures TrailingBackslashes(text + [c]) == if c == '\\' then TrailingBackslashes(text) + 1 else 0
  {
    DropLast(text, c);
  }

  lemma TrailingAfterEscaped(text: string, c: char)
    ensures TrailingBackslashes(text + EscapeChar(c)) == if c == '\\' then TrailingBackslashes(text) + 2 else 0
  {
    if |EscapeChar(c)| == 2 {
      assert text + EscapeChar(c) == (text + ['\\']) + [c];
      TrailingAfter(text, '\\');
      TrailingAfter(text + ['\\'], c);
    } else {
      TrailingAfter(text, c);
    }
  }

  lemma {:induction false} EscapeEndsEven(text: string)
    ensures TrailingBackslashes(Escape(text)) % 2 == 0
  {
    if text != "" {
      EscapeEndsEven(text[..|text| - 1]);
      TrailingAfterEscaped(Escape(text[..|text| - 1]), text[|text| - 1]);
    }
  }

  /** A cut before the end but after `before` is inside the escape of a quote or backslash. */
  lemma CutInside(before: string, c: char, cut: nat)
    requires |before| < cut < |before + EscapeChar(c)|
    ensures (before + EscapeChar(c))[..cut] == before + ['\\'] && |EscapeChar(c)| == 2
  {
  }

  /** Where a cut of an escaped text can fall: after a whole character,
      or between an escaping backslash and the character it escapes. */
  lemma {:induction false} CutOfEscape(text: string, cut: nat) returns (kept: nat)
    requires cut <= |Escape(text)|
    ensures kept <= |text|
    ensures Escape(text)[..cut] == Escape(text[..kept])
            || (kept < |text| && Escape(text)[..cut] == Escape(text[..kept]) + ['\\'] && |EscapeChar(text[kept])| == 2)
    ensures kept < |text| ==> |Escape(text[..kept + 1])| > cut
  {
    TakeAll(text);
    if cut == |Escape(text)| {
      kept := |text|;
      TakeAll(Escape(text));
    } else {
      var init, c := text[..|text| - 1], text[|text| - 1];
      if cut <= |Escape(init)| {
        kept := CutOfEscape(init, cut);
        PrefixOfConcat(Escape(init), EscapeChar(c), cut);
        PrefixOfPrefix(text, kept, |init|);
        if kept < |init| { PrefixOfPrefix(text, kept + 1, |init|); }
      } else {
        kept := |init|;
        CutInside(Escape(init), c, cut);
      }
    }
  }

  lemma {:induction false} EscapeIsMonotone(text: string, i: nat, j: nat)
    requires i <= j <= |text|
    ensures |Escape(text[..i])| <= |Escape(text[..j])|
    decreases j - i
  {
    if i < j {
      EscapeIsMonotone(text, i, j - 1);
      assert text[..j][..j - 1] == text[..j - 1];
    }
  }

  /** Dropping the last of an odd run of backslashes undoes a cut inside a character. */
  lemma DropHalfCharacter(whole: string, truncated: string)
    requires TrailingBackslashes(whole) % 2 == 0
    requires truncated == whole || truncated == whole + ['\\']
    ensures DropOddBackslash(truncated) == whole
  {
    TrailingAfter(whole, '\\');
    DropLast(whole, '\\');
  }

  lemma FitsIffShorter(text: string, kept: nat, cut: nat, k: nat)
    requires kept <= |text| && k <= |text|
    requires |Escape(text[..kept])| <= cut
    requires kept < |text| ==> |Escape(text[..kept + 1])| > cut
    ensures |Escape(text[..k])| <= cut <==> k <= kept
  {
    if k <= kept {
      EscapeIsMonotone(text, k, kept);
    } else {
      EscapeIsMonotone(text, kept + 1, k);
    }
  }

  lemma TruncateIsCut(escaped: string, maxLength: int)
    requires TrailingBackslashes(escaped) % 2 == 0
    ensures var truncated := escaped[..Budget(|escaped|, maxLength)];
            TruncateEscapedDimensionValue(escaped, maxLength)
            == DropOddBackslash(truncated)
  {
    var cut := Budget(|escaped|, maxLength);
    if |escaped| <= maxLength {
      assert escaped[..cut] == escaped;
    } else {
      assert SliceTo(escaped, maxLength) == escaped[..cut];
    }
  }

  /** For every string and every limit, escaping then truncating yields the escape of a
      prefix of the normalised value, and of the longest prefix that fits. */
  lemma EscapeThenTruncate(rawValue: string, maxLength: int) returns (kept: nat)
    ensures kept <= |rawValue|
    ensures TruncateEscapedDimensionValue(SanitizeDimensionValue(rawValue), maxLength)
            == Escape(Normalise(rawValue)[..kept])
    ensures forall k :: 0 <= k <= |rawValue| ==>
              (|Escape(Normalise(rawValue)[..k])| <= Budget(|Escape(Normalise(rawValue))|, maxLength) <==> k <= kept)
  {
    SanitizeIsEscape(rawValue);
    var text := Normalise(rawValue);
    var cut := Budget(|Escape(text)|, maxLength);
    kept := CutOfEscape(text, cut);
    EscapeEndsEven(text);
    EscapeEndsEven(text[..kept]);
    TruncateIsCut(Escape(text), maxLength);
    DropHalfCharacter(Escape(text[..kept]), Escape(text)[..cut]);
    forall k | 0 <= k <= |rawValue|
      ensures |Escape(text[..k])| <= cut <==> k <= kept
    {
      FitsIffShorter(text, kept, cut, k);
    }
  }

  lemma {:induction false} EscapeFirst(c: char, text: string)
    ensures Escape([c] + text) == EscapeChar(c) + Escape(text)
  {
    var whole := [c] + text;
    if text == "" {
      assert whole[..0] == "";
    } else {
      EscapeFirst(c, text[..|text| - 1]);
      assert whole[..|whole| - 1] == [c] + text[..|text| - 1];
      ConcatIsAssociative(EscapeChar(c), Escape(text[..|text| - 1]), EscapeChar(text[|text| - 1]));
    }
  }

  lemma ReadEscapedChar(c: char, input: string)
    requires ReadQuoted(input).Some?
    ensures var after := ReadQuoted(input).value;
            ReadQuoted(EscapeChar(c) + input) == Some(([c] + after.0, after.1))
  {
    assert (EscapeChar(c) + input)[|EscapeChar(c)|..] == input;
  }

  /** No escaped text holds a quote that ends it early or swallows the closing quote:
      the reader gives the text back and stops at the closing quote. */
  lemma {:induction false} ReadQuotedUndoesEscape(text: string, rest: string)
    ensures ReadQuoted(Escape(text) + ("\"" + rest)) == Some((text, rest))
  {
    if text == "" {
      assert Escape(text) + ("\"" + rest) == "\"" + rest;
    } else {
      EscapeFirst(text[0], text[1..]);
      assert text == [text[0]] + text[1..];
      ReadQuotedUndoesEscape(text[1..], rest);
      var input := Escape(text[1..]) + ("\"" + rest);
      ReadEscapedChar(text[0], input);
      ConcatIsAssociative(EscapeChar(text[0]), Escape(text[1..]), "\"" + rest);
    }
  }

  // ---- Dimensions ----

  datatype DimensionValue = DimensionValue(name: string, value: string)

  /** The four length limits read from the environment. */
  datatype Limits = Limits(maxName: nat, maxValue: nat, allowedKey: nat, allowedValue: nat)

  function CreateDimension(name: string, value: string, limits: Limits): DimensionValue {
    var effectiveMaxValueLength :=
      if limits.maxValue <= limits.allowedValue then limits.maxValue else limits.allowedValue;
    var keptName := if |name| > limits.maxName then SliceTo(name, limits.maxName) else name;
    var sanitized := SanitizeDimensionValue(value);
    var keptValue := if |sanitized| > effectiveMaxValueLength
                     then TruncateEscapedDimensionValue(sanitized, effectiveMaxValueLength)
                     else sanitized;
    DimensionValue(keptName, keptValue)
  }

  function PrintDimension(dimension: DimensionValue, limits: Limits): string {
    SliceTo(dimension.name, limits.allowedKey) + "=\"" + SliceTo(dimension.value, limits.allowedValue) + "\""
  }

  function PrintNonEmpty(dimensions: seq<DimensionValue>, limits: Limits): (printed: seq<string>)
    ensures forall i :: 0 <= i < |printed| ==> printed[i] != ""
  {
    if dimensions == [] then []
    else (if dimensions[0].value != "" then [PrintDimension(dimensions[0], limits)] else [])
         + PrintNonEmpty(dimensions[1..], limits)
  }

  /** `IngestLine.dimensions_string`. */
  function DimensionsString(dimensions: seq<DimensionValue>, limits: Limits): string {
    var printed := Join(PrintNonEmpty(dimensions, limits), ',');
    if printed != "" then "," + printed else printed
  }

  /** The name up to the first `=`, and what follows it. */
  function ReadName(input: string): Option<(string, string)> {
    if input == "" then None
    else if input[0] == '=' then Some(("", input[1..]))
    else match ReadName(input[1..])
         case None => None
         case Some((name, rest)) => Some(([input[0]] + name, rest))
  }

  lemma {:induction false} ReadNameShrinks(input: string)
    ensures ReadName(input).Some? ==> |ReadName(input).value.1| < |input|
  {
    if input != "" && input[0] != '=' { ReadNameShrinks(input[1..]); }
  }

  lemma {:induction false} ReadQuotedShrinks(input: string)
    ensures ReadQuoted(input).Some? ==> |ReadQuoted(input).value.1| < |input|
  {
    if input != "" && input[0] != '"' {
      if input[0] != '\\' { ReadQuotedShrinks(input[1..]); }
      else if |input| > 1 { ReadQuotedShrinks(input[2..]); }
    }
  }

  /** A reader of the dimension section: `,name="value"` any number of times, up to the
      end or to a space; returns what it read and what is left. */
  function ReadDimensions(input: string): Option<(seq<(string, string)>, string)>
    decreases |input|
  {
    if input == "" || input[0] == ' ' then Some(([], input))
    else if input[0] != ',' then None
    else match ReadName(input[1..])
         case None => None
         case Some((name, quoted)) =>
           if quoted == "" || quoted[0] != '"' then None
           else match ReadQuoted(quoted[1..])
                case None => None
                case Some((value, rest)) =>
                  ReadNameShrinks(input[1..]);
                  ReadQuotedShrinks(quoted[1..]);
                  match ReadDimensions(rest)
                  case None => None
                  case Some((others, left)) => Some(([(name, value)] + others, left))
  }

  /** What is kept of a name and a value: the name within both key limits, and the longest
      prefix of the normalised value whose escape is within both value limits. */
  function Kept(raw: (string, string), limits: Limits): (string, string) {
    (SliceTo(SliceTo(raw.0, limits.maxName), limits.allowedKey), KeptValue(raw.1, limits))
  }

  function KeptValue(value: string, limits: Limits): string {
    var limit := if limits.maxValue <= limits.allowedValue then limits.maxValue else limits.allowedValue;
    Normalise(value)[..LongestFit(Normalise(value), limit, |value|)]
  }

  /** The longest prefix of at most `k` characters whose escape is within the limit. */
  function LongestFit(text: string, limit: nat, k: nat): (length: nat)
    requires k <= |text|
    ensures length <= k
  {
    if k == 0 || |Escape(text[..k])| <= limit then k else LongestFit(text, limit, k - 1)
  }

  lemma {:induction false} LongestFitIs(text: string, limit: nat, k: nat, kept: nat)
    requires kept <= k <= |text|
    requires forall m :: 0 <= m <= |text| ==> (|Escape(text[..m])| <= limit <==> m <= kept)
    ensures LongestFit(text, limit, k) == kept
  {
    if k > kept { LongestFitIs(text, limit, k - 1, kept); }
  }

  /** What is kept of the dimensions that keep a value. */
  function KeptPairs(raws: seq<(string, string)>, limits: Limits): seq<(string, string)> {
    if raws == [] then []
    else (if Kept(raws[0], limits).1 != "" then [Kept(raws[0], limits)] else []) + KeptPairs(raws[1..], limits)
  }

  function CreateAll(raws: seq<(string, string)>, limits: Limits): seq<DimensionValue> {
    if raws == [] then [] else [CreateDimension(raws[0].0, raws[0].1, limits)] + CreateAll(raws[1..], limits)
  }

  /** The dimension was made by `create_dimension` from a name without delimiter. */
  ghost predicate Created(dimension: DimensionValue, limits: Limits) {
    exists name, value :: '=' !in name && dimension == CreateDimension(name, value, limits)
  }

  /** The value of a created dimension is the escape of what is kept: of the longest prefix
      of the normalised value whose escape fits both value limits. */
  lemma CreatedDimensionMeans(name: string, value: string, limits: Limits) returns (kept: nat)
    ensures kept <= |value| && KeptValue(value, limits) == Normalise(value)[..kept]
    ensures CreateDimension(name, value, limits).value == Escape(KeptValue(value, limits))
    ensures forall k :: 0 <= k <= |value| ==>
              (|Escape(Normalise(value)[..k])| <= limits.maxValue
               && |Escape(Normalise(value)[..k])| <= limits.allowedValue
               <==> k <= kept)
  {
    var limit := if limits.maxValue <= limits.allowedValue then limits.maxValue else limits.allowedValue;
    kept := EscapeThenTruncate(value, limit);
    FitsBudgetIff(Normalise(value), limit, kept);
    LongestFitIs(Normalise(value), limit, |value|, kept);
  }

  /** What fits the budget of a truncation fits the limit. */
  lemma FitsBudgetIff(text: string, limit: nat, kept: nat)
    requires forall k :: 0 <= k <= |text| ==> (|Escape(text[..k])| <= Budget(|Escape(text)|, limit) <==> k <= kept)
    ensures forall k :: 0 <= k <= |text| ==> (|Escape(text[..k])| <= limit <==> k <= kept)
  {
    TakeAll(text);
    forall k | 0 <= k <= |text|
      ensures |Escape(text[..k])| <= limit <==> k <= kept
    {
      EscapeIsMonotone(text, k, |text|);
    }
  }

  lemma CreatedNameMeans(name: string, value: string, limits: Limits)
    ensures SliceTo(CreateDimension(name, value, limits).name, limits.allowedKey) == Kept((name, value), limits).0
    ensures '=' !in name ==> '=' !in Kept((name, value), limits).0
  {
  }

  /** Printing slices nothing off the value of a created dimension, and nothing off its
      name unless the key limit is smaller than the name limit and the name. */
  lemma PrintingSlicesNothing(name: string, value: string, limits: Limits)
    ensures var d := CreateDimension(name, value, limits);
            SliceTo(d.value, limits.allowedValue) == d.value
    ensures var d := CreateDimension(name, value, limits);
            SliceTo(d.name, limits.allowedKey) == d.name
            <==> limits.maxName <= limits.allowedKey || |name| <= limits.allowedKey
  {
    var kept := CreatedDimensionMeans(name, value, limits);
  }

  lemma {:induction false} ReadNameOfPrinted(name: string, rest: string)
    requires '=' !in name
    ensures ReadName(name + ("=" + rest)) == Some((name, rest))
  {
    var input := name + ("=" + rest);
    if name == "" {
      assert input == "=" + rest;
      assert input[1..] == rest;
    } else {
      ReadNameOfPrinted(name[1..], rest);
      assert input[1..] == name[1..] + ("=" + rest);
      assert name == [name[0]] + name[1..];
    }
  }

  /** One printed dimension is read back, whatever follows it. */
  lemma ReadOnePrinted(raw: (string, string), limits: Limits, rest: string)
    requires '=' !in raw.0 && ReadDimensions(rest).Some?
    ensures var (others, left) := ReadDimensions(rest).value;
            ReadDimensions("," + PrintDimension(CreateDimension(raw.0, raw.1, limits), limits) + rest)
            == Some(([Kept(raw, limits)] + others, left))
  {
    var dimension := CreateDimension(raw.0, raw.1, limits);
    var kept := CreatedDimensionMeans(raw.0, raw.1, limits);
    CreatedNameMeans(raw.0, raw.1, limits);
    PrintingSlicesNothing(raw.0, raw.1, limits);
    ReadTag(Kept(raw, limits).0, KeptValue(raw.1, limits), rest);
    Reassociate(Kept(raw, limits).0, dimension.value, rest);
  }

  lemma Reassociate(key: string, value: string, rest: string)
    ensures "," + (key + "=\"" + value + "\"") + rest == "," + (key + ("=" + ("\"" + (value + ("\"" + rest)))))
  {
    var tail := value + ("\"" + rest);
    assert (value + "\"") + rest == tail;
    assert "=\"" + tail == "=" + ("\"" + tail);
    assert (key + "=\"" + value + "\"") + rest == key + ("=\"" + tail);
    assert "," + (key + "=\"" + value + "\"") + rest == "," + ((key + "=\"" + value + "\"") + rest);
  }

  lemma ReadTag(key: string, text: string, rest: string)
    requires '=' !in key
    requires ReadDimensions(rest).Some?
    ensures var (others, left) := ReadDimensions(rest).value;
            ReadDimensions("," + (key + ("=" + ("\"" + (Escape(text) + ("\"" + rest))))))
                == Some(([(key, text)] + others, left))
  {
    var body := Escape(text) + ("\"" + rest);
    var quoted := "\"" + body;
    var input := "," + (key + ("=" + quoted));
    assert input[1..] == key + ("=" + quoted);
    ReadNameOfPrinted(key, quoted);
    assert quoted[1..] == body;
    ReadQuotedUndoesEscape(text, rest);
  }

  /** The printed section is each non-empty dimension preceded by a comma. */
  function PrintEach(printed: seq<string>): string {
    if printed == [] then "" else "," + printed[0] + PrintEach(printed[1..])
  }

  lemma {:induction false} JoinIsPrintEach(printed: seq<string>)
    requires printed != []
    ensures "," + Join(printed, ',') == PrintEach(printed)
  {
    if |printed| > 1 {
      JoinIsPrintEach(printed[1..]);
      assert "," + Join(printed, ',') == "," + printed[0] + ("," + Join(printed[1..], ','));
    } else {
      assert PrintEach(printed) == "," + printed[0] + PrintEach([]);
    }
  }

  /** A created dimension is printed exactly when some of its value is kept. */
  lemma PrintedIff(raw: (string, string), limits: Limits)
    ensures CreateDimension(raw.0, raw.1, limits).value != "" <==> Kept(raw, limits).1 != ""
  {
    var kept := CreatedDimensionMeans(raw.0, raw.1, limits);
  }

  lemma {:induction false} ReadPrintedEach(raws: seq<(string, string)>, limits: Limits, rest: string)
    requires forall i :: 0 <= i < |raws| ==> '=' !in raws[i].0
    requires rest == "" || rest[0] == ' '
    ensures ReadDimensions(PrintEach(PrintNonEmpty(CreateAll(raws, limits), limits)) + rest)
            == Some((KeptPairs(raws, limits), rest))
  {
    if raws == [] {
      assert "" + rest == rest;
    } else {
      var dimensions := CreateAll(raws, limits);
      assert dimensions[1..] == CreateAll(raws[1..], limits);
      ReadPrintedEach(raws[1..], limits, rest);
      PrintedIff(raws[0], limits);
      var others := PrintNonEmpty(dimensions[1..], limits);
      if Kept(raws[0], limits).1 != "" {
        ReadFirstPrinted(raws[0], others, limits, rest);
      } else {
        ConcatEmpty(others);
        ConcatEmpty(KeptPairs(raws[1..], limits));
      }
    }
  }

  lemma ReadFirstPrinted(raw: (string, string), others: seq<string>, limits: Limits, rest: string)
    requires '=' !in raw.0
    requires ReadDimensions(PrintEach(others) + rest).Some?
    ensures var (read, left) := ReadDimensions(PrintEach(others) + rest).value;
            ReadDimensions(PrintEach([PrintDimension(CreateDimension(raw.0, raw.1, limits), limits)] + others) + rest)
            == Some(([Kept(raw, limits)] + read, left))
  {
    var first := PrintDimension(CreateDimension(raw.0, raw.1, limits), limits);
    var printed := [first] + others;
    assert printed[1..] == others;
    ReadOnePrinted(raw, limits, PrintEach(others) + rest);
    assert PrintEach(printed) + rest == "," + first + (PrintEach(others) + rest);
  }

  /** Whatever names without delimiter and values dimensions are created from, the printed
      section reads back to what is kept of them, in order and without those that keep no
      value, and the reader stops where the section ends. */
  lemma DimensionSectionRoundTrip(raws: seq<(string, string)>, limits: Limits, rest: string)
    requires forall i :: 0 <= i < |raws| ==> '=' !in raws[i].0
    requires rest == "" || rest[0] == ' '
    ensures ReadDimensions(DimensionsString(CreateAll(raws, limits), limits) + rest)
            == Some((KeptPairs(raws, limits), rest))
  {
    var printed := PrintNonEmpty(CreateAll(raws, limits), limits);
    ReadPrintedEach(raws, limits, rest);
    if printed != [] {
      JoinIsPrintEach(printed);
    }
  }

  // ---- Lines and payloads ----

  /** The parts of an ingest line that are printed; value and timestamp already as text. */
  datatype IngestLine = IngestLine(metricName: string, metricType: string, value: string, timestamp: string,
                                   dimensionValues: seq<DimensionValue>)

  function ToString(line: IngestLine, limits: Limits, allowedMetricKey: nat): string {
    var separator := if line.metricType == "gauge" then "," else "=";
    var metricType := if line.metricType != "count" then line.metricType else "count,delta";
    SliceTo(line.metricName, allowedMetricKey) + DimensionsString(line.dimensionValues, limits)
    + " " + metricType + separator + line.value + " " + line.timestamp
  }

  /** The text up to the first stop character, and the rest from there. */
  function ReadUntil(input: string, stops: set<char>): (string, string) {
    if input == "" || input[0] in stops then ("", input)
    else
      var (head, rest) := ReadUntil(input[1..], stops);
      ([input[0]] + head, rest)
  }

  /** A sample: `gauge,<value>`, `count,delta=<value>` or, for any other type, `<type>=<value>`. */
  function ReadSample(text: string): Option<(string, string)> {
    var (kind, rest) := ReadUntil(text, {',', '='});
    if kind == "gauge" then
      if rest != "" && rest[0] == ',' then Some((kind, rest[1..])) else None
    else if kind == "count" then
      if ",delta=" <= rest then Some((kind, rest[7..])) else None
    else if rest != "" && rest[0] == '=' then Some((kind, rest[1..]))
    else None
  }

  datatype Reading = Reading(metricName: string, dimensions: seq<(string, string)>,
                             metricType: string, value: string, timestamp: string)

  /** A reader of whole lines. */
  function ReadLine(text: string): Option<Reading> {
    var (name, section) := ReadUntil(text, {',', ' '});
    match ReadDimensions(section)
    case None => None
    case Some((dimensions, rest)) =>
      if rest == "" then None
      else
        var (sample, stamp) := ReadUntil(rest[1..], {' '});
        match ReadSample(sample)
        case None => None
        case Some((metricType, value)) =>
          if stamp == "" then None else Some(Reading(name, dimensions, metricType, value, stamp[1..]))
  }

  lemma {:induction false} ReadUntilStop(head: string, rest: string, stops: set<char>)
    requires forall c :: c in head ==> c !in stops
    requires rest == "" || rest[0] in stops
    ensures ReadUntil(head + rest, stops) == (head, rest)
  {
    if head == "" {
      assert head + rest == rest;
    } else {
      ReadUntilStop(head[1..], rest, stops);
      assert (head + rest)[1..] == head[1..] + rest;
      assert head == [head[0]] + head[1..];
    }
  }

  /** The sample part of a line. */
  function PrintSample(line: IngestLine): string {
    (if line.metricType != "count" then line.metricType else "count,delta")
    + (if line.metricType == "gauge" then "," else "=") + line.value
  }

  lemma ReadPrintedSample(line: IngestLine)
    requires ',' !in line.metricType && '=' !in line.metricType
    ensures ReadSample(PrintSample(line)) == Some((line.metricType, line.value))
  {
    var separator := if line.metricType == "gauge" then "," else if line.metricType == "count" then ",delta=" else "=";
    var rest := separator + line.value;
    assert PrintSample(line) == line.metricType + rest;
    ReadUntilStop(line.metricType, rest, {',', '='});
  }

  /** What a line looks like: metric key, dimensions, sample and time, the sample in one of
      three forms. */
  lemma LineText(line: IngestLine, limits: Limits, allowedMetricKey: nat)
    ensures var key := line.metricName[..if |line.metricName| < allowedMetricKey then |line.metricName|
                                         else allowedMetricKey];
            var sample := if line.metricType == "gauge" then "gauge," + line.value
                          else if line.metricType == "count" then "count,delta=" + line.value
                          else line.metricType + "=" + line.value;
            ToString(line, limits, allowedMetricKey)
            == key + (DimensionsString(line.dimensionValues, limits) + (" " + (sample + (" " + line.timestamp))))
  {
    SampleText(line);
    LineParts(line, limits, allowedMetricKey);
    SliceIsPrefix(line.metricName, allowedMetricKey);
  }

  lemma SliceIsPrefix(text: string, end: nat)
    ensures SliceTo(text, end) == text[..if |text| < end then |text| else end]
  {
  }

  lemma SampleText(line: IngestLine)
    ensures PrintSample(line)
            == if line.metricType == "gauge" then "gauge," + line.value
               else if line.metricType == "count" then "count,delta=" + line.value
               else line.metricType + "=" + line.value
  {
    assert "gauge" + "," == "gauge," && "count,delta" + "=" == "count,delta=";
  }

  /** A value without control characters, quotes and backslashes is printed as it is. */
  lemma {:induction false} PlainValueIsKept(value: string)
    requires forall i :: 0 <= i < |value| ==> value[i] !in "\r\n\t\"\\"
    ensures SanitizeDimensionValue(value) == value
  {
    SanitizeIsEscape(value);
    assert Normalise(value) == value;
    PlainEscape(value);
  }

  lemma {:induction false} PlainEscape(text: string)
    requires forall i :: 0 <= i < |text| ==> text[i] !in "\"\\"
    ensures Escape(text) == text
  {
    if text != "" { PlainEscape(text[..|text| - 1]); }
  }

  lemma LineParts(line: IngestLine, limits: Limits, allowedMetricKey: nat)
    ensures ToString(line, limits, allowedMetricKey)
            == SliceTo(line.metricName, allowedMetricKey)
               + (DimensionsString(line.dimensionValues, limits) + (" " + (PrintSample(line) + (" " + line.timestamp))))
  {
  }

  lemma SectionStartsWithComma(dimensions: seq<DimensionValue>, limits: Limits)
    ensures DimensionsString(dimensions, limits) == "" || DimensionsString(dimensions, limits)[0] == ','
  {
  }

  lemma SampleEndsAtSpace(line: IngestLine)
    requires ' ' !in line.metricType && ' ' !in line.value
    ensures ReadUntil(PrintSample(line) + (" " + line.timestamp), {' '}) == (PrintSample(line), " " + line.timestamp)
  {
    ReadUntilStop(PrintSample(line), " " + line.timestamp, {' '});
  }

  /** The part of a line after its metric key reads back. */
  lemma ReadTail(line: IngestLine, raws: seq<(string, string)>, limits: Limits, section: string, tail: string)
    requires section == DimensionsString(CreateAll(raws, limits), limits)
    requires forall i :: 0 <= i < |raws| ==> '=' !in raws[i].0
    requires tail == " " + (PrintSample(line) + (" " + line.timestamp))
    requires ',' !in line.metricType && '=' !in line.metricType && ' ' !in line.metricType && ' ' !in line.value
    ensures ReadDimensions(section + tail) == Some((KeptPairs(raws, limits), tail)) && tail != ""
    ensures ReadUntil(tail[1..], {' '}) == (PrintSample(line), " " + line.timestamp)
    ensures ReadSample(PrintSample(line)) == Some((line.metricType, line.value))
  {
    DimensionSectionRoundTrip(raws, limits, tail);
    SampleEndsAtSpace(line);
    assert tail[1..] == PrintSample(line) + (" " + line.timestamp);
    ReadPrintedSample(line);
  }

  /** A printed line reads back to its metric key, what is kept of its dimensions in order,
      its type, value and timestamp. */
  lemma LineRoundTrip(line: IngestLine, raws: seq<(string, string)>, limits: Limits, allowedMetricKey: nat)
    requires ',' !in line.metricName && ' ' !in line.metricName
    requires ',' !in line.metricType && '=' !in line.metricType && ' ' !in line.metricType && ' ' !in line.value
    requires line.dimensionValues == CreateAll(raws, limits) && forall i :: 0 <= i < |raws| ==> '=' !in raws[i].0
    ensures ReadLine(ToString(line, limits, allowedMetricKey))
            == Some(Reading(SliceTo(line.metricName, allowedMetricKey), KeptPairs(raws, limits),
                            line.metricType, line.value, line.timestamp))
  {
    var name := SliceTo(line.metricName, allowedMetricKey);
    var section := DimensionsString(line.dimensionValues, limits);
    var tail := " " + (PrintSample(line) + (" " + line.timestamp));
    LineParts(line, limits, allowedMetricKey);
    SectionStartsWithComma(line.dimensionValues, limits);
    ReadUntilStop(name, section + tail, {',', ' '});
    ReadTail(line, raws, limits, section, tail);
    assert (" " + line.timestamp)[1..] == line.timestamp;
  }

  /** `"\n".join(line.to_string() for line in batch)`. */
  function Payload(lines: seq<IngestLine>, limits: Limits, allowedMetricKey: nat): string {
    Join(Printed(lines, limits, allowedMetricKey), '\n')
  }

  function Printed(lines: seq<IngestLine>, limits: Limits, allowedMetricKey: nat): (texts: seq<string>)
    ensures |texts| == |lines|
    ensures forall i :: 0 <= i < |lines| ==> texts[i] == ToString(lines[i], limits, allowedMetricKey)
  {
    seq(|lines|, i requires 0 <= i < |lines| => ToString(lines[i], limits, allowedMetricKey))
  }

  /** Only the parts that are not sanitised are assumed free of line breaks. */
  ghost predicate LineCreated(line: IngestLine, limits: Limits) {
    && '\n' !in line.metricName && '\n' !in line.metricType && '\n' !in line.value && '\n' !in line.timestamp
    && forall i :: 0 <= i < |line.dimensionValues| ==>
         Created(line.dimensionValues[i], limits) && '\n' !in line.dimensionValues[i].name
  }

  lemma {:induction false} EscapeAddsNoBreak(text: string)
    requires '\n' !in text
    ensures '\n' !in Escape(text)
  {
    if text != "" { EscapeAddsNoBreak(text[..|text| - 1]); }
  }

  lemma PrintedDimensionHasNoBreak(dimension: DimensionValue, limits: Limits)
    requires Created(dimension, limits) && '\n' !in dimension.name
    ensures '\n' !in PrintDimension(dimension, limits)
  {
    var name, value :| '=' !in name && dimension == CreateDimension(name, value, limits);
    var kept := CreatedDimensionMeans(name, value, limits);
    EscapeAddsNoBreak(KeptValue(value, limits));
    PrintingSlicesNothing(name, value, limits);
    NoBreakInThree(SliceTo(dimension.name, limits.allowedKey), "=\"", SliceTo(dimension.value, limits.allowedValue));
  }

  lemma {:induction false} SectionHasNoBreak(dimensions: seq<DimensionValue>, limits: Limits)
    requires forall i :: 0 <= i < |dimensions| ==> Created(dimensions[i], limits) && '\n' !in dimensions[i].name
    ensures '\n' !in Join(PrintNonEmpty(dimensions, limits), ',')
  {
    if dimensions != [] {
      SectionHasNoBreak(dimensions[1..], limits);
      PrintedDimensionHasNoBreak(dimensions[0], limits);
      var others := PrintNonEmpty(dimensions[1..], limits);
      if dimensions[0].value != "" {
        assert ([PrintDimension(dimensions[0], limits)] + others)[1..] == others;
      } else {
        assert PrintNonEmpty(dimensions, limits) == others;
      }
    }
  }

  lemma LineHasNoBreak(line: IngestLine, limits: Limits, allowedMetricKey: nat)
    requires LineCreated(line, limits)
    ensures '\n' !in ToString(line, limits, allowedMetricKey)
  {
    SectionHasNoBreak(line.dimensionValues, limits);
    var separator := if line.metricType == "gauge" then "," else "=";
    var metricType := if line.metricType != "count" then line.metricType else "count,delta";
    var key := SliceTo(line.metricName, allowedMetricKey) + DimensionsString(line.dimensionValues, limits);
    NoBreakInThree(key, " ", metricType);
    NoBreakInThree(key + " " + metricType, separator, line.value);
    NoBreakInThree(key + " " + metricType + separator + line.value, " ", line.timestamp);
  }

  lemma NoBreakInThree(a: string, b: string, c: string)
    requires '\n' !in a && '\n' !in b && '\n' !in c
    ensures '\n' !in a + b + c
  {
  }

  /** Whatever the dimension values were, the payload of a batch splits back into its
      lines: none breaks the one-line-per-sample protocol. */
  lemma PayloadSplitsIntoItsLines(lines: seq<IngestLine>, limits: Limits, allowedMetricKey: nat)
    requires lines != []
    requires forall i :: 0 <= i < |lines| ==> LineCreated(lines[i], limits)
    ensures Split(Payload(lines, limits, allowedMetricKey), '\n') == Printed(lines, limits, allowedMetricKey)
  {
    forall i | 0 <= i < |lines|
      ensures '\n' !in ToString(lines[i], limits, allowedMetricKey)
    {
      LineHasNoBreak(lines[i], limits, allowedMetricKey);
    }
    SplitUndoesJoin(Printed(lines, limits, allowedMetricKey), '\n');
  }
}
