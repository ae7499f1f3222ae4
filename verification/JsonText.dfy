/** JSON text as JSON.stringify writes it, with a reader that undoes it. */
module JsonText {
  import opened CodeUnits

  datatype Json =
    | Null
    | Bool(value: bool)
    | Number(text: Units)
    | String(units: Units)
    | Array(items: seq<Json>)
    | Object(fields: seq<Field>)

  datatype Field = Field(key: Units, value: Json)

  datatype Parsed<+T> = Fail | Got(value: T, rest: Units)

  const QUOTE: Unit := 0x22
  const COMMA: Unit := 0x2C
  const COLON: Unit := 0x3A
  const BACKSLASH: Unit := 0x5C
  const OPEN_ARRAY: Unit := 0x5B
  const CLOSE_ARRAY: Unit := 0x5D
  const OPEN_OBJECT: Unit := 0x7B
  const CLOSE_OBJECT: Unit := 0x7D
  const NULL: Units := [0x6E, 0x75, 0x6C, 0x6C]
  const TRUE: Units := [0x74, 0x72, 0x75, 0x65]
  const FALSE: Units := [0x66, 0x61, 0x6C, 0x73, 0x65]

  // ---- strings ----

  predicate High(u: Unit) { 0xD800 <= u <= 0xDBFF }

  predicate Low(u: Unit) { 0xDC00 <= u <= 0xDFFF }

  /** A surrogate without its partner. */
  predicate Lone(s: Units, i: nat)
    requires i < |s|
  {
    || (High(s[i]) && !(i + 1 < |s| && Low(s[i + 1])))
    || (Low(s[i]) && !(i > 0 && High(s[i - 1])))
  }

  function HexDigit(n: nat): Unit
    requires n < 16
  {
    if n < 10 then 0x30 + n else 0x57 + n
  }

  function HexValue(u: Unit): int {
    if 0x30 <= u <= 0x39 then u - 0x30 else if 0x61 <= u <= 0x66 then u - 0x57 else -1
  }

  /** The escape of RFC 8259, section 7, with four lower-case hexadecimal digits. */
  function HexEscape(u: Unit): Units {
    [BACKSLASH, 0x75, HexDigit(u / 0x1000), HexDigit(u / 0x100 % 0x10), HexDigit(u / 0x10 % 0x10), HexDigit(u % 0x10)]
  }

  /** The letter of a two-character escape, or 0. */
  function Short(u: Unit): Unit {
    match u
    case 8 => 0x62
    case 9 => 0x74
    case 10 => 0x6E
    case 12 => 0x66
    case 13 => 0x72
    case 0x22 => QUOTE
    case 0x5C => BACKSLASH
    case _ => 0
  }

  /** The unit whose short escape has the letter, or -1. */
  function Unshort(letter: Unit): int {
    match letter
    case 0x62 => 8
    case 0x74 => 9
    case 0x6E => 10
    case 0x66 => 12
    case 0x72 => 13
    case 0x22 => 0x22
    case 0x5C => 0x5C
    case _ => -1
  }

  /** Control characters appear only as escapes. */
  predicate NoControls(t: Units) {
    forall i :: 0 <= i < |t| ==> t[i] >= 0x20
  }

  function Token(s: Units, i: nat): (t: Units)
    requires i < |s|
    ensures t != [] && t[0] != QUOTE
    ensures NoControls(t)
  {
    if Short(s[i]) != 0 then [BACKSLASH, Short(s[i])]
    else if s[i] < 0x20 || Lone(s, i) then HexEscape(s[i])
    else [s[i]]
  }

  /** The rest of a string literal, with its closing quotation mark. */
  function QuoteFrom(s: Units, i: nat): (t: Units)
    requires i <= |s|
    ensures NoControls(t)
    decreases |s| - i
  {
    if i == |s| then [QUOTE] else Token(s, i) + QuoteFrom(s, i + 1)
  }

  function Quote(s: Units): Units { [QUOTE] + QuoteFrom(s, 0) }

  function ReadHex(t: Units): Parsed<Unit> {
    if |t| < 6 then Fail
    else
      var a, b, c, d := HexValue(t[2]), HexValue(t[3]), HexValue(t[4]), HexValue(t[5]);
      if a < 0 || b < 0 || c < 0 || d < 0 then Fail
      else Got(a * 0x1000 + b * 0x100 + c * 0x10 + d, t[6..])
  }

  function ReadUnit(t: Units): (r: Parsed<Unit>)
    requires t != []
    ensures r.Got? ==> |r.rest| < |t|
  {
    if t[0] != BACKSLASH then Got(t[0], t[1..])
    else if |t| < 2 then Fail
    else if t[1] == 0x75 then ReadHex(t)
    else if Unshort(t[1]) < 0 then Fail
    else Got(Unshort(t[1]), t[2..])
  }

  function Unquote(t: Units): (r: Parsed<Units>)
    ensures r.Got? ==> |r.rest| < |t|
    decreases |t|
  {
    if t == [] then Fail
    else if t[0] == QUOTE then Got([], t[1..])
    else
      match ReadUnit(t)
      case Fail => Fail
      case Got(u, rest) =>
        match Unquote(rest)
        case Fail => Fail
        case Got(s, after) => Got([u] + s, after)
  }

  lemma HexDigits(u: Unit)
    ensures u == u / 0x1000 * 0x1000 + u / 0x100 % 0x10 * 0x100 + u / 0x10 % 0x10 * 0x10 + u % 0x10
  {
    assert u / 0x100 == u / 0x10 / 0x10 && u / 0x1000 == u / 0x100 / 0x10;
  }

  lemma HexRead(a: Unit, b: Unit, c: Unit, d: Unit, rest: Units)
    requires HexValue(a) >= 0 && HexValue(b) >= 0 && HexValue(c) >= 0 && HexValue(d) >= 0
    ensures ReadHex([BACKSLASH, 0x75, a, b, c, d] + rest) ==
            Got(HexValue(a) * 0x1000 + HexValue(b) * 0x100 + HexValue(c) * 0x10 + HexValue(d), rest)
  {
    assert ([BACKSLASH, 0x75, a, b, c, d] + rest)[6..] == rest;
  }

  lemma HexRoundTrip(u: Unit, rest: Units)
    ensures ReadHex(HexEscape(u) + rest) == Got(u, rest)
  {
    HexDigits(u);
    HexRead(HexDigit(u / 0x1000), HexDigit(u / 0x100 % 0x10), HexDigit(u / 0x10 % 0x10), HexDigit(u % 0x10), rest);
  }

  lemma TokenRoundTrip(s: Units, i: nat, rest: Units)
    requires i < |s|
    ensures ReadUnit(Token(s, i) + rest) == Got(s[i], rest)
    ensures (Token(s, i) + rest)[0] != QUOTE
  {
    var t := Token(s, i) + rest;
    if Short(s[i]) != 0 {
      assert t[2..] == rest;
    } else if s[i] < 0x20 || Lone(s, i) {
      HexRoundTrip(s[i], rest);
    } else {
      assert t[1..] == rest;
    }
  }

  lemma Assoc(a: Units, b: Units, c: Units)
    ensures a + b + c == a + (b + c)
  {
  }

  lemma Behind(u: Unit, rest: Units)
    ensures ([u] + rest)[1..] == rest && ([u] + rest)[0] == u
  {
  }

  lemma RestOf(s: Units, i: nat)
    requires i < |s|
    ensures s[i..] == [s[i]] + s[i + 1..]
  {
  }

  lemma UnquoteStep(t: Units, u: Unit, rest: Units, s: Units, after: Units)
    requires t != [] && t[0] != QUOTE && ReadUnit(t) == Got(u, rest) && Unquote(rest) == Got(s, after)
    ensures Unquote(t) == Got([u] + s, after)
  {
  }

  lemma {:induction false} QuoteRoundTrip(s: Units, i: nat, rest: Units)
    requires i <= |s|
    ensures Unquote(QuoteFrom(s, i) + rest) == Got(s[i..], rest)
    decreases |s| - i
  {
    if i == |s| {
      Behind(QUOTE, rest);
      assert s[i..] == [];
    } else {
      var more := QuoteFrom(s, i + 1) + rest;
      QuoteRoundTrip(s, i + 1, rest);
      TokenRoundTrip(s, i, more);
      Assoc(Token(s, i), QuoteFrom(s, i + 1), rest);
      UnquoteStep(Token(s, i) + more, s[i], more, s[i + 1..], rest);
      RestOf(s, i);
    }
  }

  predicate Unpaired(s: Units, i: nat)
    requires i < |s|
  {
    || (0xD800 <= s[i] < 0xDC00 && (i + 1 == |s| || !(0xDC00 <= s[i + 1] < 0xE000)))
    || (0xDC00 <= s[i] < 0xE000 && (i == 0 || !(0xD800 <= s[i - 1] < 0xDC00)))
  }

  /** The units with a two-character escape, and their letters. */
  lemma ShortReads(u: Unit)
    ensures Short(u) == match u
                        case 8 => 'b' as int
                        case 9 => 't' as int
                        case 10 => 'n' as int
                        case 12 => 'f' as int
                        case 13 => 'r' as int
                        case 34 => '"' as int
                        case 92 => '\\' as int
                        case _ => 0
  {
  }

  lemma HexReads(u: Unit)
    ensures forall n: nat :: n < 16 ==> HexDigit(n) == if n < 10 then '0' as int + n else 'a' as int + n - 10
    ensures HexEscape(u) ==
            Code("\\u") + [HexDigit(u / 4096), HexDigit(u / 256 % 16), HexDigit(u / 16 % 16), HexDigit(u % 16)]
  {
  }

  /** How a code unit is spelled in a string literal: short, as hexadecimal digits, or as itself. */
  lemma TokenReads(s: Units, i: nat)
    requires i < |s|
    ensures Short(s[i]) != 0 ==> Token(s, i) == Code("\\") + [Short(s[i])]
    ensures Short(s[i]) == 0 ==> Token(s, i) == if s[i] < 32 || Unpaired(s, i) then HexEscape(s[i]) else [s[i]]
  {
  }

  // ---- values ----

  predicate Numeric(u: Unit) {
    0x30 <= u <= 0x39 || u == 0x2D || u == 0x2B || u == 0x2E || u == 0x65
  }

  /** The text of a finite number: digits, sign, point and exponent, starting with a digit or a minus. */
  predicate NumberText(t: Units) {
    && t != []
    && (0x30 <= t[0] <= 0x39 || t[0] == 0x2D)
    && forall i :: 0 <= i < |t| ==> Numeric(t[i])
  }

  predicate Proper(v: Json) {
    match v
    case Null => true
    case Bool(_) => true
    case Number(t) => NumberText(t)
    case String(_) => true
    case Array(items) => forall i :: 0 <= i < |items| ==> Proper(items[i])
    case Object(fields) => forall i :: 0 <= i < |fields| ==> Proper(fields[i].value)
  }

  function Print(v: Json): Units {
    match v
    case Null => NULL
    case Bool(b) => if b then TRUE else FALSE
    case Number(t) => t
    case String(s) => Quote(s)
    case Array(items) => [OPEN_ARRAY] + if items == [] then [CLOSE_ARRAY] else PrintItems(items)
    case Object(fields) => [OPEN_OBJECT] + if fields == [] then [CLOSE_OBJECT] else PrintFields(fields)
  }

  function PrintItems(items: seq<Json>): Units
    requires items != []
  {
    Print(items[0]) + if |items| == 1 then [CLOSE_ARRAY] else [COMMA] + PrintItems(items[1..])
  }

  function PrintField(field: Field): Units {
    Quote(field.key) + [COLON] + Print(field.value)
  }

  function PrintFields(fields: seq<Field>): Units
    requires fields != []
  {
    PrintField(fields[0]) + if |fields| == 1 then [CLOSE_OBJECT] else [COMMA] + PrintFields(fields[1..])
  }

  /** The text of a scalar, and of an empty array or object. */
  lemma ScalarsRead(s: Units)
    ensures Print(Null) == Code("null") && Print(Bool(true)) == Code("true") && Print(Bool(false)) == Code("false")
    ensures Print(Number(s)) == s
  {
  }

  lemma StringReads(s: Units)
    ensures Print(String(s)) == Code("\"") + QuoteFrom(s, 0)
    ensures QuoteFrom(s, |s|) == Code("\"")
  {
  }

  lemma EmptyReads()
    ensures Print(Array([])) == Code("[]") && Print(Object([])) == Code("{}")
  {
  }

  /** The text of an array, from that of its first item and that of the rest. */
  lemma ArrayReads(first: Json, rest: seq<Json>)
    ensures Print(Array([first] + rest)) ==
            Code("[") + Print(first) + if rest == [] then Code("]") else Code(",") + Print(Array(rest))[1..]
  {
    assert ([first] + rest)[1..] == rest;
  }

  lemma FieldReads(key: Units, value: Json)
    ensures PrintField(Field(key, value)) == Print(String(key)) + Code(":") + Print(value)
  {
  }

  /** The text of an object, from its first property and the text of the rest. */
  lemma ObjectReads(first: Field, rest: seq<Field>)
    ensures Print(Object([first] + rest)) ==
            Code("{") + PrintField(first) + if rest == [] then Code("}") else Code(",") + Print(Object(rest))[1..]
  {
    assert ([first] + rest)[1..] == rest;
  }

  function NumberLength(t: Units): (n: nat)
    ensures n <= |t|
    ensures forall i :: 0 <= i < n ==> Numeric(t[i])
    ensures n < |t| ==> !Numeric(t[n])
  {
    if t != [] && Numeric(t[0]) then 1 + NumberLength(t[1..]) else 0
  }

  predicate StartsWith(t: Units, word: Units) {
    |word| <= |t| && t[..|word|] == word
  }

  function Parse(t: Units): (r: Parsed<Json>)
    ensures r.Got? ==> |r.rest| < |t|
    decreases |t|, 1
  {
    if t == [] then Fail
    else if t[0] == QUOTE then ParseString(t[1..])
    else if t[0] == OPEN_ARRAY then ParseArray(t[1..])
    else if t[0] == OPEN_OBJECT then ParseObject(t[1..])
    else ParseLiteral(t)
  }

  function ParseString(t: Units): (r: Parsed<Json>)
    ensures r.Got? ==> |r.rest| < |t|
  {
    match Unquote(t)
    case Fail => Fail
    case Got(s, rest) => Got(String(s), rest)
  }

  function ParseLiteral(t: Units): (r: Parsed<Json>)
    ensures r.Got? ==> |r.rest| < |t|
  {
    if StartsWith(t, NULL) then Got(Null, t[|NULL|..])
    else if StartsWith(t, TRUE) then Got(Bool(true), t[|TRUE|..])
    else if StartsWith(t, FALSE) then Got(Bool(false), t[|FALSE|..])
    else
      var n := NumberLength(t);
      if n == 0 then Fail else Got(Number(t[..n]), t[n..])
  }

  function ParseArray(t: Units): (r: Parsed<Json>)
    ensures r.Got? ==> |r.rest| < |t|
    decreases |t|, 3
  {
    if t != [] && t[0] == CLOSE_ARRAY then Got(Array([]), t[1..])
    else
      match ParseItems(t)
      case Fail => Fail
      case Got(items, rest) => Got(Array(items), rest)
  }

  function ParseObject(t: Units): (r: Parsed<Json>)
    ensures r.Got? ==> |r.rest| < |t|
    decreases |t|, 4
  {
    if t != [] && t[0] == CLOSE_OBJECT then Got(Object([]), t[1..])
    else
      match ParseFields(t)
      case Fail => Fail
      case Got(fields, rest) => Got(Object(fields), rest)
  }

  function ParseItems(t: Units): (r: Parsed<seq<Json>>)
    ensures r.Got? ==> |r.rest| < |t|
    decreases |t|, 2
  {
    match Parse(t)
    case Fail => Fail
    case Got(v, rest) =>
      if rest == [] then Fail
      else if rest[0] == CLOSE_ARRAY then Got([v], rest[1..])
      else if rest[0] != COMMA then Fail
      else
        match ParseItems(rest[1..])
        case Fail => Fail
        case Got(items, after) => Got([v] + items, after)
  }

  function ParseField(t: Units): (r: Parsed<Field>)
    ensures r.Got? ==> |r.rest| < |t|
    decreases |t|, 2
  {
    if t == [] || t[0] != QUOTE then Fail
    else
      match Unquote(t[1..])
      case Fail => Fail
      case Got(key, rest) =>
        if rest == [] || rest[0] != COLON then Fail
        else
          match Parse(rest[1..])
          case Fail => Fail
          case Got(v, after) => Got(Field(key, v), after)
  }

  function ParseFields(t: Units): (r: Parsed<seq<Field>>)
    ensures r.Got? ==> |r.rest| < |t|
    decreases |t|, 3
  {
    match ParseField(t)
    case Fail => Fail
    case Got(field, rest) =>
      if rest == [] then Fail
      else if rest[0] == CLOSE_OBJECT then Got([field], rest[1..])
      else if rest[0] != COMMA then Fail
      else
        match ParseFields(rest[1..])
        case Fail => Fail
        case Got(fields, after) => Got([field] + fields, after)
  }

  /** What may follow a number so that it ends there. */
  predicate Delimited(rest: Units) {
    rest == [] || !Numeric(rest[0])
  }

  lemma {:induction false} NumberEnds(t: Units, rest: Units)
    requires (forall i :: 0 <= i < |t| ==> Numeric(t[i])) && Delimited(rest)
    ensures NumberLength(t + rest) == |t|
  {
    assert forall i :: 0 <= i < |t| ==> (t + rest)[i] == t[i];
    assert rest != [] ==> (t + rest)[|t|] == rest[0];
  }

  lemma WordRead(word: Units, rest: Units)
    ensures StartsWith(word + rest, word) && (word + rest)[|word|..] == rest
  {
  }

  /** The text of a value starts in a way that tells its kind. */
  lemma FirstUnit(v: Json)
    requires Proper(v)
    ensures Print(v) != []
    ensures Print(v)[0] != CLOSE_ARRAY && Print(v)[0] != CLOSE_OBJECT
  {
    match v
    case Null =>
    case Bool(_) =>
    case Number(_) =>
    case String(_) =>
    case Array(_) =>
    case Object(_) =>
  }

  /** Reading undoes printing. */
  lemma {:induction false} RoundTrip(v: Json, rest: Units)
    requires Proper(v) && Delimited(rest)
    ensures Parse(Print(v) + rest) == Got(v, rest)
    decreases v, 1
  {
    match v
    case Null => WordRead(NULL, rest);
    case Bool(b) => WordRead(if b then TRUE else FALSE, rest);
    case Number(t) => NumberRoundTrip(t, rest);
    case String(s) => StringRoundTrip(s, rest);
    case Array(items) => ArrayRoundTrip(items, rest);
    case Object(fields) => ObjectRoundTrip(fields, rest);
  }

  lemma NumberRoundTrip(t: Units, rest: Units)
    requires NumberText(t) && Delimited(rest)
    ensures Parse(t + rest) == Got(Number(t), rest)
  {
    NumberEnds(t, rest);
    Parts(t, rest);
    NotAWord(t + rest);
  }

  lemma Parts(a: Units, b: Units)
    ensures (a + b)[..|a|] == a && (a + b)[|a|..] == b
    ensures a != [] ==> (a + b)[0] == a[0]
  {
  }

  /** A text that starts like a number is read as one. */
  lemma NotAWord(t: Units)
    requires t != [] && (0x30 <= t[0] <= 0x39 || t[0] == 0x2D)
    ensures !StartsWith(t, NULL) && !StartsWith(t, TRUE) && !StartsWith(t, FALSE)
  {
    assert forall word: Units :: StartsWith(t, word) && word != [] ==> word[0] == t[0];
  }

  lemma StringRoundTrip(s: Units, rest: Units)
    ensures Parse(Quote(s) + rest) == Got(String(s), rest)
  {
    QuoteRoundTrip(s, 0, rest);
    Assoc([QUOTE], QuoteFrom(s, 0), rest);
    Behind(QUOTE, QuoteFrom(s, 0) + rest);
    assert s[0..] == s;
  }

  lemma Opens(t: Units)
    ensures Parse([OPEN_ARRAY] + t) == ParseArray(t)
    ensures Parse([OPEN_OBJECT] + t) == ParseObject(t)
  {
    Behind(OPEN_ARRAY, t);
    Behind(OPEN_OBJECT, t);
  }

  lemma {:induction false} ArrayRoundTrip(items: seq<Json>, rest: Units)
    requires forall i :: 0 <= i < |items| ==> Proper(items[i])
    ensures Parse(Print(Array(items)) + rest) == Got(Array(items), rest)
    decreases items, 2
  {
    if items == [] {
      Behind(CLOSE_ARRAY, rest);
      Assoc([OPEN_ARRAY], [CLOSE_ARRAY], rest);
      Opens([CLOSE_ARRAY] + rest);
    } else {
      ItemsRoundTrip(items, rest);
      FirstUnit(items[0]);
      Assoc([OPEN_ARRAY], PrintItems(items), rest);
      Opens(PrintItems(items) + rest);
    }
  }

  lemma HeadAndTail<T>(s: seq<T>)
    requires s != []
    ensures s == [s[0]] + s[1..]
    ensures |s| == 1 ==> s == [s[0]]
  {
  }

  lemma ItemsStep(t: Units, v: Json, more: Units, items: seq<Json>, rest: Units)
    requires Parse(t) == Got(v, [COMMA] + more) && ParseItems(more) == Got(items, rest)
    ensures ParseItems(t) == Got([v] + items, rest)
  {
    Behind(COMMA, more);
  }

  lemma ItemsEnd(t: Units, v: Json, rest: Units)
    requires Parse(t) == Got(v, [CLOSE_ARRAY] + rest)
    ensures ParseItems(t) == Got([v], rest)
  {
    Behind(CLOSE_ARRAY, rest);
  }

  lemma {:induction false} ItemsRoundTrip(items: seq<Json>, rest: Units)
    requires items != [] && forall i :: 0 <= i < |items| ==> Proper(items[i])
    ensures ParseItems(PrintItems(items) + rest) == Got(items, rest)
    decreases items, 1
  {
    var first := Print(items[0]);
    if |items| == 1 {
      RoundTrip(items[0], [CLOSE_ARRAY] + rest);
      Assoc(first, [CLOSE_ARRAY], rest);
      ItemsEnd(first + ([CLOSE_ARRAY] + rest), items[0], rest);
      HeadAndTail(items);
    } else {
      var more := PrintItems(items[1..]) + rest;
      RoundTrip(items[0], [COMMA] + more);
      Assoc(first, [COMMA] + PrintItems(items[1..]), rest);
      Assoc([COMMA], PrintItems(items[1..]), rest);
      ItemsRoundTrip(items[1..], rest);
      ItemsStep(first + ([COMMA] + more), items[0], more, items[1..], rest);
      HeadAndTail(items);
    }
  }

  lemma {:induction false} ObjectRoundTrip(fields: seq<Field>, rest: Units)
    requires forall i :: 0 <= i < |fields| ==> Proper(fields[i].value)
    ensures Parse(Print(Object(fields)) + rest) == Got(Object(fields), rest)
    decreases fields, 2
  {
    if fields == [] {
      Behind(CLOSE_OBJECT, rest);
      Assoc([OPEN_OBJECT], [CLOSE_OBJECT], rest);
      Opens([CLOSE_OBJECT] + rest);
    } else {
      FieldsRoundTrip(fields, rest);
      FirstQuote(fields, rest);
      Assoc([OPEN_OBJECT], PrintFields(fields), rest);
      Opens(PrintFields(fields) + rest);
    }
  }

  lemma FirstQuote(fields: seq<Field>, rest: Units)
    requires fields != []
    ensures (PrintFields(fields) + rest)[0] == QUOTE
  {
  }

  lemma FieldStep(field: Field, t: Units, rest: Units)
    requires Parse(t) == Got(field.value, rest)
    requires Unquote(QuoteFrom(field.key, 0) + ([COLON] + t)) == Got(field.key, [COLON] + t)
    ensures ParseField([QUOTE] + (QuoteFrom(field.key, 0) + ([COLON] + t))) == Got(field, rest)
  {
    Behind(QUOTE, QuoteFrom(field.key, 0) + ([COLON] + t));
    Behind(COLON, t);
  }

  lemma {:induction false} FieldRoundTrip(field: Field, rest: Units)
    requires Proper(field.value) && Delimited(rest)
    ensures ParseField(PrintField(field) + rest) == Got(field, rest)
    decreases field, 0
  {
    var t := Print(field.value) + rest;
    QuoteRoundTrip(field.key, 0, [COLON] + t);
    assert field.key[0..] == field.key;
    RoundTrip(field.value, rest);
    FieldStep(field, t, rest);
    Assoc(Quote(field.key), [COLON], Print(field.value));
    Assoc(Quote(field.key), [COLON] + Print(field.value), rest);
    Assoc([COLON], Print(field.value), rest);
    Assoc([QUOTE], QuoteFrom(field.key, 0), [COLON] + t);
  }

  lemma FieldsStep(t: Units, field: Field, more: Units, fields: seq<Field>, rest: Units)
    requires ParseField(t) == Got(field, [COMMA] + more) && ParseFields(more) == Got(fields, rest)
    ensures ParseFields(t) == Got([field] + fields, rest)
  {
    Behind(COMMA, more);
  }

  lemma FieldsEnd(t: Units, field: Field, rest: Units)
    requires ParseField(t) == Got(field, [CLOSE_OBJECT] + rest)
    ensures ParseFields(t) == Got([field], rest)
  {
    Behind(CLOSE_OBJECT, rest);
  }

  lemma {:induction false} FieldsRoundTrip(fields: seq<Field>, rest: Units)
    requires fields != [] && forall i :: 0 <= i < |fields| ==> Proper(fields[i].value)
    ensures ParseFields(PrintFields(fields) + rest) == Got(fields, rest)
    decreases fields, 1
  {
    var first := PrintField(fields[0]);
    if |fields| == 1 {
      FieldRoundTrip(fields[0], [CLOSE_OBJECT] + rest);
      Assoc(first, [CLOSE_OBJECT], rest);
      FieldsEnd(first + ([CLOSE_OBJECT] + rest), fields[0], rest);
      HeadAndTail(fields);
    } else {
      var more := PrintFields(fields[1..]) + rest;
      FieldRoundTrip(fields[0], [COMMA] + more);
      Assoc(first, [COMMA] + PrintFields(fields[1..]), rest);
      Assoc([COMMA], PrintFields(fields[1..]), rest);
      FieldsRoundTrip(fields[1..], rest);
      FieldsStep(first + ([COMMA] + more), fields[0], more, fields[1..], rest);
      HeadAndTail(fields);
    }
  }

  /** No JSON text contains a control character, a line feed in particular. */
  lemma {:induction false} TextHasNoControls(v: Json)
    requires Proper(v)
    ensures NoControls(Print(v))
    decreases v, 1
  {
    match v
    case Null =>
    case Bool(_) =>
    case Number(_) =>
    case String(_) =>
    case Array(items) => if items != [] { ItemsHaveNoControls(items); }
    case Object(fields) => if fields != [] { FieldsHaveNoControls(fields); }
  }

  lemma {:induction false} ItemsHaveNoControls(items: seq<Json>)
    requires items != [] && forall i :: 0 <= i < |items| ==> Proper(items[i])
    ensures NoControls(PrintItems(items))
    decreases items, 1
  {
    TextHasNoControls(items[0]);
    if |items| > 1 {
      ItemsHaveNoControls(items[1..]);
    }
  }

  lemma {:induction false} FieldsHaveNoControls(fields: seq<Field>)
    requires fields != [] && forall i :: 0 <= i < |fields| ==> Proper(fields[i].value)
    ensures NoControls(PrintFields(fields))
    decreases fields, 1
  {
    TextHasNoControls(fields[0].value);
    if |fields| > 1 {
      FieldsHaveNoControls(fields[1..]);
    }
  }
}
