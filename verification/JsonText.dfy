/**
 * JSON texts as RFC 8259 derives them: concrete syntax trees over UTF-16 code units, the text
 * each stands for, and the meaning of a string (section 7).
 */
module JsonText {
  import opened Util

  type Unit = u: nat | u < 0x1_0000
  type Units = seq<Unit>

  const QUOTE: Unit := 0x22
  const BACKSLASH: Unit := 0x5C
  const LBRACE: Unit := 0x7B
  const RBRACE: Unit := 0x7D
  const LBRACKET: Unit := 0x5B
  const RBRACKET: Unit := 0x5D
  const COMMA: Unit := 0x2C
  const COLON: Unit := 0x3A
  const LETTER_U: Unit := 0x75

  // ---- strings ----

  /** One character of a string: itself, a two-character escape, or four hexadecimal digits. */
  datatype Char = Plain(unit: Unit) | Escaped(letter: Unit) | Unicode(h1: Unit, h2: Unit, h3: Unit, h4: Unit)

  function HexValue(u: Unit): (r: Option<nat>)
    ensures r.Some? ==> r.value < 16
  {
    if 0x30 <= u <= 0x39 then Some(u - 0x30)
    else if 0x41 <= u <= 0x46 then Some(u - 0x41 + 10)
    else if 0x61 <= u <= 0x66 then Some(u - 0x61 + 10)
    else None
  }

  /** What the letter after a backslash stands for: one of `" \ / b f n r t`. */
  function EscapeValue(letter: Unit): Option<Unit> {
    if letter == 0x22 || letter == 0x5C || letter == 0x2F then Some(letter)
    else if letter == 0x62 then Some(0x08)
    else if letter == 0x66 then Some(0x0C)
    else if letter == 0x6E then Some(0x0A)
    else if letter == 0x72 then Some(0x0D)
    else if letter == 0x74 then Some(0x09)
    else None
  }

  predicate CharValid(c: Char) {
    match c
    case Plain(u) => u >= 0x20 && u != QUOTE && u != BACKSLASH
    case Escaped(letter) => EscapeValue(letter).Some?
    case Unicode(h1, h2, h3, h4) =>
      HexValue(h1).Some? && HexValue(h2).Some? && HexValue(h3).Some? && HexValue(h4).Some?
  }

  function FourHex(h1: Unit, h2: Unit, h3: Unit, h4: Unit): Option<Unit> {
    if HexValue(h1).Some? && HexValue(h2).Some? && HexValue(h3).Some? && HexValue(h4).Some?
    then Some(0x1000 * HexValue(h1).value + 0x100 * HexValue(h2).value + 0x10 * HexValue(h3).value + HexValue(h4).value)
    else None
  }

  function CharMeaning(c: Char): Unit
    requires CharValid(c)
  {
    match c
    case Plain(u) => u
    case Escaped(letter) => EscapeValue(letter).value
    case Unicode(h1, h2, h3, h4) => FourHex(h1, h2, h3, h4).value
  }

  predicate CharsValid(cs: seq<Char>) {
    forall c :: c in cs ==> CharValid(c)
  }

  /** The code units a string stands for. */
  function Meaning(cs: seq<Char>): (r: Units)
    requires CharsValid(cs)
    ensures |r| == |cs|
  {
    if cs == [] then [] else [CharMeaning(cs[0])] + Meaning(cs[1..])
  }

  function CharText(c: Char): Units {
    match c
    case Plain(u) => [u]
    case Escaped(letter) => [BACKSLASH, letter]
    case Unicode(h1, h2, h3, h4) => [BACKSLASH, LETTER_U, h1, h2, h3, h4]
  }

  /** What stands between the quotes. */
  function Raw(cs: seq<Char>): Units {
    if cs == [] then [] else CharText(cs[0]) + Raw(cs[1..])
  }

  // ---- values ----

  datatype Number = Number(negative: bool, whole: Units, fraction: Option<Units>, exponent: Option<Exponent>)

  /** `mark` is `e` or `E`, `sign` nothing or one of `+ -`. */
  datatype Exponent = Exponent(mark: Unit, sign: Units, digits: Units)

  datatype Value =
    | Null
    | True
    | False
    | Num(number: Number)
    | Str(chars: seq<Char>)
    | Array(blank: Units, items: Items)
    | Object(blank: Units, members: Members)

  /** The elements of an array; a comma stands between one and the next. */
  datatype Items = NoItems | Item(before: Units, value: Value, after: Units, rest: Items)

  /** The members of an object, likewise. */
  datatype Members =
    | NoMembers
    | Member(before: Units, name: seq<Char>, beforeColon: Units, afterColon: Units, value: Value, after: Units, rest: Members)

  /** A JSON text: a value with white space around it. */
  datatype Document = Document(before: Units, value: Value, after: Units)

  predicate Blank(ws: Units) {
    forall u :: u in ws ==> u == 0x20 || u == 0x09 || u == 0x0A || u == 0x0D
  }

  predicate Digits(ds: Units) {
    ds != [] && forall u :: u in ds ==> 0x30 <= u <= 0x39
  }

  predicate NumberValid(n: Number) {
    && Digits(n.whole) && (|n.whole| > 1 ==> n.whole[0] != 0x30)
    && (n.fraction.Some? ==> Digits(n.fraction.value))
    && (n.exponent.Some? ==>
          var e := n.exponent.value;
          && (e.mark == 0x65 || e.mark == 0x45)
          && (e.sign == [] || e.sign == [0x2B] || e.sign == [0x2D])
          && Digits(e.digits))
  }

  predicate ValueValid(v: Value) {
    match v
    case Null => true
    case True => true
    case False => true
    case Num(n) => NumberValid(n)
    case Str(cs) => CharsValid(cs)
    case Array(blank, items) => Blank(blank) && ItemsValid(items)
    case Object(blank, members) => Blank(blank) && MembersValid(members)
  }

  predicate ItemsValid(items: Items) {
    match items
    case NoItems => true
    case Item(before, value, after, rest) => Blank(before) && ValueValid(value) && Blank(after) && ItemsValid(rest)
  }

  predicate MembersValid(members: Members) {
    match members
    case NoMembers => true
    case Member(before, name, beforeColon, afterColon, value, after, rest) =>
      && Blank(before) && CharsValid(name) && Blank(beforeColon) && Blank(afterColon)
      && ValueValid(value) && Blank(after) && MembersValid(rest)
  }

  predicate DocumentValid(d: Document) {
    Blank(d.before) && ValueValid(d.value) && Blank(d.after)
  }

  // ---- the text of each, followed by `post` ----

  const NULL_WORD: Units := [0x6E, 0x75, 0x6C, 0x6C]
  const TRUE_WORD: Units := [0x74, 0x72, 0x75, 0x65]
  const FALSE_WORD: Units := [0x66, 0x61, 0x6C, 0x73, 0x65]

  function NumberText(n: Number): Units {
    (if n.negative then [0x2D] else []) + n.whole
    + (if n.fraction.Some? then [0x2E] + n.fraction.value else [])
    + (if n.exponent.Some? then [n.exponent.value.mark] + n.exponent.value.sign + n.exponent.value.digits else [])
  }

  function StringText(cs: seq<Char>, post: Units): Units {
    [QUOTE] + (Raw(cs) + ([QUOTE] + post))
  }

  function ValueText(v: Value, post: Units): Units
    decreases v
  {
    match v
    case Null => NULL_WORD + post
    case True => TRUE_WORD + post
    case False => FALSE_WORD + post
    case Num(n) => NumberText(n) + post
    case Str(cs) => StringText(cs, post)
    case Array(blank, items) => [LBRACKET] + (blank + ItemsText(items, [RBRACKET] + post))
    case Object(blank, members) => [LBRACE] + (blank + MembersText(members, [RBRACE] + post))
  }

  function ItemsText(items: Items, post: Units): Units
    decreases items
  {
    match items
    case NoItems => post
    case Item(before, value, after, rest) =>
      before + ValueText(value, after + if rest == NoItems then post else [COMMA] + ItemsText(rest, post))
  }

  function MembersText(members: Members, post: Units): Units
    decreases members
  {
    match members
    case NoMembers => post
    case Member(before, name, beforeColon, afterColon, value, after, rest) =>
      before + StringText(name, beforeColon + ([COLON] + (afterColon +
        ValueText(value, after + if rest == NoMembers then post else [COMMA] + MembersText(rest, post)))))
  }

  function DocumentText(d: Document): Units {
    d.before + ValueText(d.value, d.after)
  }

  /** `text` is a JSON text. */
  ghost predicate IsJson(text: Units) {
    exists d :: DocumentValid(d) && DocumentText(d) == text
  }

  // ---- reading a string back ----

  function Front(u: Unit, rest: Option<Units>): Option<Units> {
    if rest.Some? then Some([u] + rest.value) else None
  }

  /** The string that `raw` writes, when it is what may stand between quotes. */
  function Decode(raw: Units): Option<Units>
    decreases |raw|
  {
    if raw == [] then Some([])
    else if raw[0] != BACKSLASH then
      if raw[0] < 0x20 || raw[0] == QUOTE then None else Front(raw[0], Decode(raw[1..]))
    else if |raw| < 2 then None
    else if raw[1] == LETTER_U then
      if |raw| < 6 then None
      else
        var unit := FourHex(raw[2], raw[3], raw[4], raw[5]);
        if unit.None? then None else Front(unit.value, Decode(raw[6..]))
    else
      var unit := EscapeValue(raw[1]);
      if unit.None? then None else Front(unit.value, Decode(raw[2..]))
  }

  /** Decoding what a string is written as gives back what it means. */
  lemma {:induction false} DecodeRaw(cs: seq<Char>)
    requires CharsValid(cs)
    ensures Decode(Raw(cs)) == Some(Meaning(cs))
  {
    if cs != [] {
      var raw, first := Raw(cs), CharText(cs[0]);
      assert CharValid(cs[0]) && raw[..|first|] == first && raw[|first|..] == Raw(cs[1..]);
      DecodeRaw(cs[1..]);
    }
  }
}
