/** The JSON values that tool results carry, their truthiness, lookups and their text length. */
module Json {
  import opened Common
  import Numerals

  datatype Field = Field(key: string, value: Json)

  datatype Json =
    | Null
    | Bool(b: bool)
    | Num(n: int)
    | Str(s: string)
    | Arr(items: seq<Json>)
    | Obj(fields: seq<Field>)

  datatype Result<+T> = Ok(value: T) | Err(exception: string)

  predicate Truthy(j: Json) {
    match j
    case Null => false
    case Bool(b) => b
    case Num(n) => n != 0
    case Str(s) => s != ""
    case Arr(items) => items != []
    case Obj(fields) => fields != []
  }

  function Lookup(fields: seq<Field>, key: string, default: Json): Json {
    if fields == [] then default
    else if fields[0].key == key then fields[0].value
    else Lookup(fields[1..], key, default)
  }

  /** The first field with the key gives the value. */
  lemma {:induction false} LookupFinds(fields: seq<Field>, key: string, default: Json, k: nat)
    requires k < |fields| && fields[k].key == key && forall i :: 0 <= i < k ==> fields[i].key != key
    ensures Lookup(fields, key, default) == fields[k].value
    decreases k
  {
    if k > 0 {
      LookupFinds(fields[1..], key, default, k - 1);
    }
  }

  lemma {:induction false} LookupMisses(fields: seq<Field>, key: string, default: Json)
    requires forall i :: 0 <= i < |fields| ==> fields[i].key != key
    ensures Lookup(fields, key, default) == default
  {
    if fields != [] {
      LookupMisses(fields[1..], key, default);
    }
  }

  /** `value.get(key, default)` on a dict; anything else has no keys. */
  function Get(j: Json, key: string, default: Json): Json {
    if j.Obj? then Lookup(j.fields, key, default) else default
  }

  function DigitChar(d: nat): char
    requires d < 10
  {
    ('0' as int + d) as char
  }

  function DecimalPadded(n: nat, width: nat): string {
    var ds := Numerals.Padded(n, 10, width);
    seq(|ds|, i requires 0 <= i < |ds| => DigitChar(ds[i]))
  }

  function Decimal(n: int): string {
    if n < 0 then "-" + DecimalPadded(-n, 1) else DecimalPadded(n, 1)
  }

  lemma DecimalPaddedInjective(a: nat, b: nat, width: nat)
    requires DecimalPadded(a, width) == DecimalPadded(b, width)
    ensures a == b
  {
    var da, db := Numerals.Padded(a, 10, width), Numerals.Padded(b, 10, width);
    assert |da| == |DecimalPadded(a, width)| == |db|;
    forall i | 0 <= i < |da| ensures da[i] == db[i] {
      assert DecimalPadded(a, width)[i] == DecimalPadded(b, width)[i];
    }
    assert da == db;
    Numerals.PaddedReadsBack(a, 10, width);
    Numerals.PaddedReadsBack(b, 10, width);
  }

  /** Escape as json.dumps(ensure_ascii=False) does: only quotes, backslashes and control characters. */
  function Escaped(c: char): string {
    if c == '"' then "\\\""
    else if c == '\\' then "\\\\"
    else if c == '\n' then "\\n"
    else if c == '\r' then "\\r"
    else if c == '\t' then "\\t"
    else if c == 8 as char then "\\b"
    else if c == 12 as char then "\\f"
    else if c < ' ' then "\\u00" + [HexChar(c as int / 16), HexChar(c as int % 16)]
    else [c]
  }

  function HexChar(d: nat): char
    requires d < 16
  {
    if d < 10 then DigitChar(d) else ('a' as int + d - 10) as char
  }

  function EscapedText(s: string): string {
    if s == "" then "" else EscapedText(s[..|s| - 1]) + Escaped(s[|s| - 1])
  }

  function Quoted(s: string): string {
    "\"" + EscapedText(s) + "\""
  }

  // ----- reading text back -----

  function HexValue(c: char): int {
    if '0' <= c <= '9' then c as int - '0' as int
    else if 'a' <= c <= 'f' then c as int - 'a' as int + 10
    else -1
  }

  function Unescape(letter: char): Option<char> {
    match letter
    case '"' => Some('"')
    case '\\' => Some('\\')
    case 'n' => Some('\n')
    case 'r' => Some('\r')
    case 't' => Some('\t')
    case 'b' => Some(8 as char)
    case 'f' => Some(12 as char)
    case _ => None
  }

  /** One character inside a JSON string and how long it is written. */
  datatype Token = Token(c: char, length: nat)

  /** The first character of the inside of a JSON string, as section 7 of RFC 8259 reads it; None if not allowed. */
  function FirstToken(t: string): (r: Option<Token>)
    requires t != ""
    ensures r.Some? ==> 0 < r.value.length <= |t|
  {
    if t[0] == '"' || t[0] < ' ' then None
    else if t[0] != '\\' then Some(Token(t[0], 1))
    else if |t| < 2 then None
    else if t[1] == 'u' then
      if |t| < 6 || t[2] != '0' || t[3] != '0' || HexValue(t[4]) < 0 || HexValue(t[5]) < 0 then None
      else Some(Token((16 * HexValue(t[4]) + HexValue(t[5])) as char, 6))
    else match Unescape(t[1])
      case Some(c) => Some(Token(c, 2))
      case None => None
  }

  /** What the inside of a JSON string says. */
  function ReadText(t: string): Option<string>
    decreases |t|
  {
    if t == "" then Some("")
    else match FirstToken(t)
      case None => None
      case Some(token) =>
        match ReadText(t[token.length..])
        case None => None
        case Some(rest) => Some([token.c] + rest)
  }

  lemma FirstTokenOfSum(a: string, b: string)
    requires a != "" && FirstToken(a).Some?
    ensures FirstToken(a + b) == FirstToken(a)
  {
    var s := a + b;
    assert s[0] == a[0] && (|a| >= 2 ==> s[1] == a[1]);
    assert |a| >= 6 ==> s[2] == a[2] && s[3] == a[3] && s[4] == a[4] && s[5] == a[5];
  }

  lemma NothingToRead()
    ensures ReadText("") == Some("")
  {
  }

  lemma HasToken(t: string)
    requires t != "" && ReadText(t).Some?
    ensures FirstToken(t).Some?
  {
  }

  /** Reading goes character by character. */
  lemma ReadStep(t: string, token: Token)
    requires t != "" && FirstToken(t) == Some(token)
    ensures ReadText(t).Some? <==> ReadText(t[token.length..]).Some?
    ensures ReadText(t).Some? ==> ReadText(t).value == [token.c] + ReadText(t[token.length..]).value
  {
  }

  lemma {:induction false} ReadTextOfSum(a: string, b: string)
    requires ReadText(a).Some? && ReadText(b).Some?
    ensures ReadText(a + b) == Some(ReadText(a).value + ReadText(b).value)
    decreases |a|
  {
    hide ReadText, FirstToken;
    if a == "" {
      NothingToRead();
      assert a + b == b && "" + ReadText(b).value == ReadText(b).value;
    } else {
      HasToken(a);
      var token := FirstToken(a).value;
      FirstTokenOfSum(a, b);
      var rest := a[token.length..];
      assert (a + b)[token.length..] == rest + b;
      ReadStep(a, token);
      ReadTextOfSum(rest, b);
      ReadStep(a + b, token);
      assert [token.c] + (ReadText(rest).value + ReadText(b).value) == ReadText(a).value + ReadText(b).value;
    }
  }

  lemma HexReadsBack(d: nat)
    requires d < 16
    ensures HexValue(HexChar(d)) == d
  {
  }

  lemma TokenOfEscaped(c: char)
    ensures Escaped(c) != "" && FirstToken(Escaped(c)) == Some(Token(c, |Escaped(c)|))
  {
    hide HexChar, HexValue;
    if c < ' ' {
      HexReadsBack(c as int / 16);
      HexReadsBack(c as int % 16);
    }
  }

  lemma ReadEscaped(c: char)
    ensures ReadText(Escaped(c)) == Some([c])
  {
    hide Escaped, FirstToken;
    TokenOfEscaped(c);
    var e := Escaped(c);
    assert e[|e|..] == "" && ReadText("") == Some("");
    assert [c] + "" == [c];
  }

  /** Escaped text reads back as the text. */
  lemma {:induction false} EscapedTextReadsBack(s: string)
    ensures ReadText(EscapedText(s)) == Some(s)
  {
    hide *;
    EscapedStep(s);
    if s == "" {
      NothingToRead();
    } else {
      var n := |s| - 1;
      EscapedTextReadsBack(s[..n]);
      ReadEscaped(s[n]);
      ReadTextOfSum(EscapedText(s[..n]), Escaped(s[n]));
      assert s[..n] + [s[n]] == s;
    }
  }

  lemma EscapedStep(s: string)
    ensures EscapedText(s) == if s == "" then "" else EscapedText(s[..|s| - 1]) + Escaped(s[|s| - 1])
  {
    hide Escaped;
  }

  predicate IsPlain(c: char) {
    c != '"' && c != '\\' && c >= ' '
  }

  lemma PlainStays(c: char)
    requires IsPlain(c)
    ensures Escaped(c) == [c]
  {
  }

  /** Text without quotes, backslashes and control characters is its own escape. */
  lemma {:induction false} PlainTextStays(s: string)
    requires forall i :: 0 <= i < |s| ==> IsPlain(s[i])
    ensures EscapedText(s) == s
  {
    hide *;
    EscapedStep(s);
    if s != "" {
      var n := |s| - 1;
      PlainTextStays(s[..n]);
      PlainStays(s[n]);
      assert s[..n] + [s[n]] == s;
    }
  }

  /** json.dumps with its default separators. */
  function Dump(j: Json): string
    decreases j, 1
  {
    match j
    case Null => "null"
    case Bool(b) => if b then "true" else "false"
    case Num(n) => Decimal(n)
    case Str(s) => Quoted(s)
    case Arr(items) => "[" + DumpItems(items) + "]"
    case Obj(fields) => "{" + DumpFields(fields) + "}"
  }

  function DumpItems(items: seq<Json>): string
    decreases items, 0
  {
    if items == [] then ""
    else if |items| == 1 then Dump(items[0])
    else DumpItems(items[..|items| - 1]) + ", " + Dump(items[|items| - 1])
  }

  function DumpFields(fields: seq<Field>): string
    decreases fields, 0
  {
    if fields == [] then ""
    else
      var head := Quoted(fields[0].key) + ": " + Dump(fields[0].value);
      if |fields| == 1 then head else head + ", " + DumpFields(fields[1..])
  }

  /** An object's text, field after field. */
  lemma DumpFieldsPrepend(first: Field, rest: seq<Field>)
    ensures DumpFields([first] + rest) ==
            Quoted(first.key) + ": " + Dump(first.value) + if rest == [] then "" else ", " + DumpFields(rest)
  {
    assert ([first] + rest)[1..] == rest;
  }

  lemma DumpItemsAppend(items: seq<Json>, last: Json)
    ensures DumpItems(items + [last]) ==
            if items == [] then Dump(last) else DumpItems(items) + ", " + Dump(last)
  {
    var all := items + [last];
    assert all[..|all| - 1] == items && all[|all| - 1] == last;
  }

  /** `str(value)` for event ids; text of nested containers is their JSON text. */
  function PyStr(j: Json): string {
    match j
    case Str(s) => s
    case Num(n) => Decimal(n)
    case Bool(b) => if b then "True" else "False"
    case Null => "None"
    case _ => Dump(j)
  }

  // ----- what the texts are -----

  /** The values that count as false. */
  lemma FalsyExactlyWhen(j: Json)
    ensures !Truthy(j) <==> j == Null || j == Bool(false) || j == Num(0) || j == Str("") || j == Arr([]) || j == Obj([])
  {
  }

  predicate AllDigits(t: string) {
    forall i :: 0 <= i < |t| ==> '0' <= t[i] <= '9'
  }

  function DigitValues(t: string): seq<nat>
    requires AllDigits(t)
  {
    seq(|t|, i requires 0 <= i < |t| => t[i] as int - '0' as int)
  }

  /** A decimal numeral: a minus sign for negative numbers alone, then digits without a superfluous zero. */
  ghost predicate IsDecimal(t: string, n: int) {
    var digits := if n < 0 then (if t == "" then "" else t[1..]) else t;
    && t != "" && (n < 0 <==> t[0] == '-')
    && digits != [] && AllDigits(digits) && (|digits| > 1 ==> digits[0] != '0')
    && Numerals.Value(DigitValues(digits), 10) == if n < 0 then -n else n
  }

  lemma DigitsReadBack(m: nat)
    ensures var t := DecimalPadded(m, 1); AllDigits(t) && Numerals.Value(DigitValues(t), 10) == m
  {
    hide Numerals.Padded, Numerals.Value;
    var t, ds := DecimalPadded(m, 1), Numerals.Padded(m, 10, 1);
    assert |t| == |ds| && forall i :: 0 <= i < |t| ==> t[i] == DigitChar(ds[i]);
    assert DigitValues(t) == ds;
    Numerals.PaddedReadsBack(m, 10, 1);
  }

  lemma NoSuperfluousZero(m: nat)
    ensures var t := DecimalPadded(m, 1); t != "" && (|t| > 1 ==> t[0] != '0')
  {
    hide Numerals.Digits;
    var ds := Numerals.Digits(m, 10);
    if m > 0 {
      Numerals.NoLeadingZero(m, 10);
    } else {
      assert ds == [] by { Numerals.DigitCount(0, 10, 0); }
    }
  }

  lemma DecimalIs(n: int)
    ensures IsDecimal(Decimal(n), n)
  {
    hide DecimalPadded, DigitValues, Numerals.Value;
    var m: nat := if n < 0 then -n else n;
    DigitsReadBack(m);
    NoSuperfluousZero(m);
    var t := DecimalPadded(m, 1);
    assert '0' <= t[0] <= '9';
    if n < 0 {
      assert Decimal(n)[1..] == t;
    }
  }

  /** The text of a JSON value, as section 3 of RFC 8259 has it, with one space after commas and colons. */
  ghost predicate IsText(t: string, j: Json)
    decreases j, 1
  {
    match j
    case Null => t == "null"
    case Bool(b) => t == if b then "true" else "false"
    case Num(n) => IsDecimal(t, n)
    case Str(s) => IsQuoted(t, s)
    case Arr(items) => exists inside :: t == "[" + inside + "]" && IsListText(inside, items)
    case Obj(fields) => exists inside :: t == "{" + inside + "}" && IsFieldsText(inside, fields)
  }

  ghost predicate IsQuoted(t: string, s: string) {
    |t| >= 2 && t[0] == '"' && t[|t| - 1] == '"' && ReadText(t[1..|t| - 1]) == Some(s)
  }

  ghost predicate IsListText(t: string, items: seq<Json>)
    decreases items, 0
  {
    if items == [] then t == ""
    else if |items| == 1 then IsText(t, items[0])
    else exists init, last ::
      && t == init + ", " + last
      && IsListText(init, items[..|items| - 1]) && IsText(last, items[|items| - 1])
  }

  ghost predicate IsFieldsText(t: string, fields: seq<Field>)
    decreases fields, 0
  {
    if fields == [] then t == ""
    else if |fields| == 1 then IsFieldText(t, fields[0])
    else exists first, rest ::
      t == first + ", " + rest && IsFieldText(first, fields[0]) && IsFieldsText(rest, fields[1..])
  }

  ghost predicate IsFieldText(t: string, field: Field)
    decreases field, 2
  {
    exists key, value :: t == key + ": " + value && IsQuoted(key, field.key) && IsText(value, field.value)
  }

  lemma QuotedIs(s: string)
    ensures IsQuoted(Quoted(s), s)
  {
    EscapedTextReadsBack(s);
    assert Quoted(s)[1..|Quoted(s)| - 1] == EscapedText(s);
  }

  /** What json.dumps writes is a text of its value. */
  lemma {:induction false} DumpIsText(j: Json)
    ensures IsText(Dump(j), j)
    decreases j, 1
  {
    hide Decimal, Quoted, IsDecimal, IsQuoted, DumpItems, DumpFields, IsListText, IsFieldsText;
    match j
    case Num(n) => DecimalIs(n);
    case Str(s) => QuotedIs(s);
    case Arr(items) => DumpItemsIsText(items);
    case Obj(fields) => DumpFieldsIsText(fields);
    case _ =>
  }

  lemma {:induction false} DumpItemsIsText(items: seq<Json>)
    ensures IsListText(DumpItems(items), items)
    decreases items, 0
  {
    hide Dump, IsText;
    if |items| == 1 {
      DumpIsText(items[0]);
    } else if items != [] {
      DumpItemsIsText(items[..|items| - 1]);
      DumpIsText(items[|items| - 1]);
    }
  }

  lemma {:induction false} DumpFieldsIsText(fields: seq<Field>)
    ensures IsFieldsText(DumpFields(fields), fields)
    decreases fields, 0
  {
    hide *;
    if fields == [] {
      NoFieldsText();
    } else {
      FieldIsText(fields[0]);
      if |fields| == 1 {
        OneFieldText(fields[0]);
        assert fields == [fields[0]];
      } else {
        DumpFieldsIsText(fields[1..]);
        MoreFieldsText(fields);
      }
    }
  }

  function FieldText(field: Field): string {
    Quoted(field.key) + ": " + Dump(field.value)
  }

  lemma FieldIsText(field: Field)
    ensures IsFieldText(FieldText(field), field)
    decreases field, 2
  {
    hide Dump, IsText, Quoted, IsQuoted;
    QuotedIs(field.key);
    DumpIsText(field.value);
  }

  lemma NoFieldsText()
    ensures IsFieldsText(DumpFields([]), [])
  {
  }

  lemma OneFieldText(field: Field)
    requires IsFieldText(FieldText(field), field)
    ensures IsFieldsText(DumpFields([field]), [field])
  {
    hide IsFieldText, Dump, Quoted;
  }

  lemma MoreFieldsText(fields: seq<Field>)
    requires |fields| > 1 && IsFieldText(FieldText(fields[0]), fields[0])
    requires IsFieldsText(DumpFields(fields[1..]), fields[1..])
    ensures IsFieldsText(DumpFields(fields), fields)
  {
    hide IsFieldText, Dump, Quoted;
    assert DumpFields(fields) == FieldText(fields[0]) + ", " + DumpFields(fields[1..]);
  }
}
