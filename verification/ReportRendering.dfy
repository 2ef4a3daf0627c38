/**
 The text of a report that `_valid_report` of src/migration_rehearsal/final_once.py searches for forbidden terms, and
 why searching the values searches the text.
 */
module ReportRendering {
  import opened Sql
  import opened ReportWords
  import opened FinalReport

  // ---------------------------------------------------------------- the text

  /** What the text leaves open here: the order of an object's keys, how a float is written, the digits of a digest. */
  datatype Style = Style(order: set<Name> -> seq<Name>, float: real -> string, digest: Sha -> string)

  predicate FloatChar(c: char) {
    '0' <= c <= '9' || c in {'-', '+', '.', 'e'}
  }

  predicate HexChar(c: char) {
    '0' <= c <= '9' || 'a' <= c <= 'f'
  }

  ghost predicate ListsKeys(order: set<Name> -> seq<Name>) {
    forall keys, n :: n in order(keys) <==> n in keys
  }

  /** Every key is written, and floats and digests consist of their characters. */
  ghost predicate StyleOk(style: Style) {
    && ListsKeys(style.order)
    && (forall r, i | 0 <= i < |style.float(r)| :: FloatChar(style.float(r)[i]))
    && forall h, i | 0 <= i < |style.digest(h)| :: HexChar(style.digest(h)[i])
  }

  ghost function Listed(keys: set<Name>): (listed: seq<Name>)
    ensures forall n :: n in listed <==> n in keys
  {
    if keys == {} then []
    else
      var key :| key in keys;
      [key] + Listed(keys - {key})
  }

  /** There are such styles. */
  lemma {:induction false} SomeStyleIsOk()
    ensures StyleOk(Style(keys => Listed(keys), r => "0.0", h => "0"))
  {
  }

  function Digits(n: nat): string {
    (if n < 10 then "" else Digits(n / 10)) + [('0' as int + n % 10) as char]
  }

  function Decimal(n: int): string {
    if n < 0 then "-" + Digits(-n) else Digits(n)
  }

  function TextOf(style: Style, s: Str): string {
    match s
    case Plain(text) => Escaped(text)
    case Word(w) => Spelling(w)
    case Hex(h) => style.digest(h)
    case Ref(h) => "sha256:" + style.digest(h)
  }

  function Quoted(text: string): string {
    "\"" + text + "\""
  }

  /** `json.dumps` with its default separators. */
  ghost function Rendered(style: Style, j: Json): string
    requires ListsKeys(style.order)
    decreases j, 1, 0
  {
    match j
    case JNull => "null"
    case JBool(b) => if b then "true" else "false"
    case JInt(n) => Decimal(n)
    case JReal(r) => style.float(r)
    case JStr(s) => Quoted(TextOf(style, s))
    case JArr(items) => "[" + RenderedItems(style, j, 0) + "]"
    case JObj(fields) => "{" + RenderedFields(style, j, style.order(fields.Keys)) + "}"
  }

  ghost function RenderedItems(style: Style, j: Json, i: nat): string
    requires ListsKeys(style.order) && j.JArr? && i <= |j.items|
    decreases j, 0, |j.items| - i
  {
    if i == |j.items| then ""
    else Rendered(style, j.items[i]) + (if i + 1 == |j.items| then "" else ", " + RenderedItems(style, j, i + 1))
  }

  ghost function RenderedFields(style: Style, j: Json, keys: seq<Name>): string
    requires ListsKeys(style.order) && j.JObj? && forall k | k in keys :: k in j.fields
    decreases j, 0, |keys|
  {
    if keys == [] then ""
    else
      Quoted(Spelling(keys[0])) + ": " + Rendered(style, j.fields[keys[0]])
      + if |keys| == 1 then "" else ", " + RenderedFields(style, j, keys[1..])
  }

  // ---------------------------------------------------------------- no term crosses a separator

  /** A character that no term has. */
  predicate Separates(c: char) {
    !('a' <= LowerChar(c) <= 'z') && c != '_'
  }

  lemma {:induction false} TermsAreWords(t: nat, k: nat)
    requires t < |FORBIDDEN| && k < |FORBIDDEN[t]|
    ensures 'a' <= FORBIDDEN[t][k] <= 'z' || FORBIDDEN[t][k] == '_'
  {
  }

  lemma {:induction false} SameThere(a: string, i: nat, b: string, j: nat, term: string)
    requires ContainsAt(a, term, i) && j + |term| <= |b| && a[i..i + |term|] == b[j..j + |term|]
    ensures ContainsAt(b, term, j)
  {
    forall k | 0 <= k < |term|
      ensures LowerChar(b[j + k]) == term[k]
    {
      assert b[j + k] == b[j..j + |term|][k] == a[i..i + |term|][k] == a[i + k];
    }
  }

  /** A term in a text is on one side of any separator. */
  lemma {:induction false} FoundOnOneSide(a: string, c: char, b: string, t: nat, i: nat)
    requires Separates(c) && t < |FORBIDDEN| && ContainsAt(a + [c] + b, FORBIDDEN[t], i)
    ensures ContainsAt(a, FORBIDDEN[t], i) || (i > |a| && ContainsAt(b, FORBIDDEN[t], i - |a| - 1))
  {
    var text, term := a + [c] + b, FORBIDDEN[t];
    if i <= |a| < i + |term| {
      TermsAreWords(t, |a| - i);
      assert false;
    } else if i + |term| <= |a| {
      SameThere(text, i, a, i, term);
    } else {
      SameThere(text, i, b, i - |a| - 1, term);
    }
  }

  lemma {:induction false} FoundInAPart(a: string, b: string, t: nat, i: nat)
    requires t < |FORBIDDEN| && (ContainsAt(a, FORBIDDEN[t], i) || ContainsAt(b, FORBIDDEN[t], i))
    ensures ContainsAt(a + b, FORBIDDEN[t], i) || ContainsAt(a + b, FORBIDDEN[t], |a| + i)
  {
    if ContainsAt(a, FORBIDDEN[t], i) {
      assert (a + b)[..|a|] == a;
      SameThere(a, i, a + b, i, FORBIDDEN[t]);
    } else {
      assert (a + b)[|a|..] == b;
      SameThere(b, i, a + b, |a| + i, FORBIDDEN[t]);
    }
  }

  lemma {:induction false} PartsMention(a: string, b: string)
    ensures MentionsForbidden(a) || MentionsForbidden(b) ==> MentionsForbidden(a + b)
  {
    if MentionsForbidden(a) {
      var t, i :| 0 <= t < |FORBIDDEN| && 0 <= i < |a| && ContainsAt(a, FORBIDDEN[t], i);
      FoundInAPart(a, b, t, i);
    } else if MentionsForbidden(b) {
      var t, i :| 0 <= t < |FORBIDDEN| && 0 <= i < |b| && ContainsAt(b, FORBIDDEN[t], i);
      FoundInAPart(a, b, t, i);
    }
  }

  /** A text mentions a term exactly when one of the two sides of a separator does. */
  lemma {:induction false} Split(a: string, c: char, b: string)
    requires Separates(c)
    ensures MentionsForbidden(a + [c] + b) <==> MentionsForbidden(a) || MentionsForbidden(b)
  {
    var text := a + [c] + b;
    if MentionsForbidden(text) {
      var t, i :| 0 <= t < |FORBIDDEN| && 0 <= i < |text| && ContainsAt(text, FORBIDDEN[t], i);
      FoundOnOneSide(a, c, b, t, i);
      assert |FORBIDDEN[t]| > 0;
    }
    PartsMention(a, [c] + b);
    PartsMention([c], b);
    assert a + ([c] + b) == text;
  }

  lemma {:induction false} NothingMentionsNothing()
    ensures !MentionsForbidden("")
  {
  }

  lemma {:induction false} Enclosed(open: char, text: string, close: char)
    requires Separates(open) && Separates(close)
    ensures MentionsForbidden([open] + text + [close]) <==> MentionsForbidden(text)
  {
    NothingMentionsNothing();
    Split("", open, text + [close]);
    Split(text, close, "");
    assert "" + [open] + (text + [close]) == [open] + text + [close];
    assert text + [close] + "" == text + [close];
  }

  /** Two parts with a separator and a blank between them. */
  lemma {:induction false} Separated(a: string, c: char, b: string)
    requires Separates(c)
    ensures MentionsForbidden(a + [c, ' '] + b) <==> MentionsForbidden(a) || MentionsForbidden(b)
  {
    NothingMentionsNothing();
    Split(a, c, " " + b);
    Split("", ' ', b);
    assert "" + [' '] + b == " " + b;
    assert a + [c] + (" " + b) == a + [c, ' '] + b;
  }

  // ---------------------------------------------------------------- numbers, digests and literals

  /** A text of characters of floats has no term: each term has another character. */
  lemma {:induction false} FloatsMentionNothing(text: string)
    requires forall i | 0 <= i < |text| :: FloatChar(text[i])
    ensures !MentionsForbidden(text)
  {
    forall t, i | 0 <= t < |FORBIDDEN| && 0 <= i < |text|
      ensures !ContainsAt(text, FORBIDDEN[t], i)
    {
      // The n of environment, the first character of any other.
      var k := if t == 2 then 1 else 0;
      assert !FloatChar(FORBIDDEN[t][k]) && k < |FORBIDDEN[t]|;
      assert i + |FORBIDDEN[t]| <= |text| ==> LowerChar(text[i + k]) == text[i + k];
    }
  }

  lemma {:induction false} DigitsAreDigits(n: nat)
    ensures forall i | 0 <= i < |Digits(n)| :: FloatChar(Digits(n)[i])
  {
    if n >= 10 {
      DigitsAreDigits(n / 10);
    }
  }

  lemma {:induction false} NumbersMentionNothing(style: Style, j: Json)
    requires StyleOk(style) && (j.JInt? || j.JReal?)
    ensures !MentionsForbidden(Rendered(style, j))
  {
    if j.JInt? {
      DigitsAreDigits(if j.n < 0 then -j.n else j.n);
    }
    FloatsMentionNothing(Rendered(style, j));
  }

  lemma {:induction false} LiteralsMentionNothing()
    ensures !MentionsForbidden("null") && !MentionsForbidden("true") && !MentionsForbidden("false")
  {
    CleanMentionsNothing("null");
    CleanMentionsNothing("true");
    CleanMentionsNothing("false");
  }

  lemma {:induction false} StringsMention(style: Style, s: Str)
    requires StyleOk(style)
    ensures MentionsForbidden(Quoted(TextOf(style, s))) <==> StrMentions(WordMentions, s)
  {
    Enclosed('"', TextOf(style, s), '"');
    if s.Hex? || s.Ref? {
      assert forall i | 0 <= i < |style.digest(s.h)| :: HexChar(style.digest(s.h)[i]);
      DigestsAreClean(TextOf(style, s));
    }
  }

  // ---------------------------------------------------------------- the text and the values

  lemma {:induction false} ItemsSplit(style: Style, j: Json, i: nat)
    requires StyleOk(style) && j.JArr? && i < |j.items|
    ensures MentionsForbidden(RenderedItems(style, j, i)) <==>
            || MentionsForbidden(Rendered(style, j.items[i]))
            || MentionsForbidden(RenderedItems(style, j, i + 1))
  {
    NothingMentionsNothing();
    var first, rest := Rendered(style, j.items[i]), RenderedItems(style, j, i + 1);
    if i + 1 == |j.items| {
      assert RenderedItems(style, j, i) == first;
    } else {
      assert RenderedItems(style, j, i) == first + [',', ' '] + rest;
      Separated(first, ',', rest);
    }
  }

  lemma {:induction false} FirstOrLater(items: seq<Json>, i: nat)
    requires i < |items|
    ensures (exists k | i <= k < |items| :: Mentions(WordMentions, items[k])) <==>
            || Mentions(WordMentions, items[i])
            || exists k | i + 1 <= k < |items| :: Mentions(WordMentions, items[k])
  {
  }

  lemma {:induction false} ItemsMention(style: Style, j: Json, i: nat)
    requires StyleOk(style) && j.JArr? && i <= |j.items|
    ensures MentionsForbidden(RenderedItems(style, j, i)) <==>
            exists k | i <= k < |j.items| :: Mentions(WordMentions, j.items[k])
    decreases j, 0, |j.items| - i
  {
    if i == |j.items| {
      NothingMentionsNothing();
    } else {
      RenderedMentions(style, j.items[i]);
      ItemsMention(style, j, i + 1);
      ItemsSplit(style, j, i);
      FirstOrLater(j.items, i);
    }
  }

  /** One key and its value. */
  ghost function Field(style: Style, j: Json, key: Name): string
    requires ListsKeys(style.order) && j.JObj? && key in j.fields
  {
    Quoted(Spelling(key)) + ": " + Rendered(style, j.fields[key])
  }

  lemma {:induction false} FieldSplit(style: Style, j: Json, key: Name)
    requires StyleOk(style) && j.JObj? && key in j.fields
    ensures MentionsForbidden(Field(style, j, key)) <==>
            WordMentions(key) || MentionsForbidden(Rendered(style, j.fields[key]))
  {
    Enclosed('"', Spelling(key), '"');
    Separated(Quoted(Spelling(key)), ':', Rendered(style, j.fields[key]));
  }

  lemma {:induction false} FieldsSplit(style: Style, j: Json, keys: seq<Name>)
    requires StyleOk(style) && j.JObj? && keys != [] && forall k | k in keys :: k in j.fields
    ensures MentionsForbidden(RenderedFields(style, j, keys)) <==>
            || MentionsForbidden(Field(style, j, keys[0]))
            || MentionsForbidden(RenderedFields(style, j, keys[1..]))
  {
    NothingMentionsNothing();
    var first, rest := Field(style, j, keys[0]), RenderedFields(style, j, keys[1..]);
    if |keys| == 1 {
      assert RenderedFields(style, j, keys) == first + "" == first;
    } else {
      assert RenderedFields(style, j, keys) == first + [',', ' '] + rest;
      Separated(first, ',', rest);
    }
  }

  lemma {:induction false} FieldsMention(style: Style, j: Json, keys: seq<Name>)
    requires StyleOk(style) && j.JObj? && forall k | k in keys :: k in j.fields
    ensures MentionsForbidden(RenderedFields(style, j, keys)) <==>
            exists k | k in keys :: WordMentions(k) || Mentions(WordMentions, j.fields[k])
    decreases j, 0, |keys|
  {
    if keys == [] {
      NothingMentionsNothing();
    } else {
      RenderedMentions(style, j.fields[keys[0]]);
      FieldSplit(style, j, keys[0]);
      FieldsMention(style, j, keys[1..]);
      FieldsSplit(style, j, keys);
      assert forall k :: k in keys <==> k == keys[0] || k in keys[1..];
    }
  }

  /** The rendered text of any value holds a forbidden term exactly when a string or a key in it does. */
  lemma {:induction false} RenderedMentions(style: Style, j: Json)
    requires StyleOk(style)
    ensures MentionsForbidden(Rendered(style, j)) <==> Mentions(WordMentions, j)
    decreases j, 1, 0
  {
    match j
    case JNull => LiteralsMentionNothing();
    case JBool(_) => LiteralsMentionNothing();
    case JInt(_) => NumbersMentionNothing(style, j);
    case JReal(_) => NumbersMentionNothing(style, j);
    case JStr(s) => StringsMention(style, s);
    case JArr(_) =>
      ItemsMention(style, j, 0);
      Enclosed('[', RenderedItems(style, j, 0), ']');
    case JObj(fields) =>
      FieldsMention(style, j, style.order(fields.Keys));
      Enclosed('{', RenderedFields(style, j, style.order(fields.Keys)), '}');
  }

  /**
   In whatever order the keys are written: a report that passes every other check renders to a text with a forbidden
   term exactly when a frozen tool version holds one.
   */
  lemma {:induction false} OnlyVersionsAreFound(style: Style, j: Json)
    requires StyleOk(style) && PartsOf(j).Some? && ValidParts(PartsOf(j).value)
    ensures MentionsForbidden(Rendered(style, j)) <==>
            !VersionsClean(PartsOf(j).value.frozen.fields[ToolVersions].fields)
  {
    RenderedMentions(style, j);
    WordMentionsIsSilent();
    OnlyVersionsMention(WordMentions, j);
  }

  /** The validator's content check is the one that searches the rendered text. */
  lemma {:induction false} ValidContentSearchesTheText(style: Style, j: Json)
    requires StyleOk(style)
    ensures ValidContent(j) <==>
            PartsOf(j).Some? && ValidParts(PartsOf(j).value) && !MentionsForbidden(Rendered(style, j))
  {
    RenderedMentions(style, j);
  }

  // ---------------------------------------------------------------- a version that names a term

  /** The frozen tool versions, with "pid" as the version of pytest: each report that repeats them is invalid. */
  lemma {:induction false} PidVersionIsFound(versions: map<Name, Json>)
    ensures !VersionsClean(versions[Pytest := JStr(Plain("pid"))])
  {
    PidIsMentioned();
    var changed := versions[Pytest := JStr(Plain("pid"))];
    assert Pytest in changed && StrMentions(WordMentions, changed[Pytest].s);
  }

  lemma {:induction false} PidIsMentioned()
    ensures MentionsForbidden(Escaped("pid"))
  {
    assert Escaped("pid") == "pid" by {
      assert "pid"[1..] == "id" && "id"[1..] == "d" && "d"[1..] == "";
      assert EscapedChar('p') == "p" && EscapedChar('i') == "i" && EscapedChar('d') == "d";
    }
    assert ContainsAt("pid", FORBIDDEN[3], 0);
  }
}
