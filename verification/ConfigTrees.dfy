/** A configuration document as nested blocks whose keys keep their order: writing, reading, and how the two meet. */
module ConfigTrees {
  import opened Util

  /** The fixed keys of the document. */
  datatype Word =
    network | name | rails | arkade | mnemonic | operatorUrl | emulatorUrl | esploraUrl | unilateralExitDelay |
    covclaimdUrl | poolAutoMint | contractRetentionDays | lightning | backend | lnd | socket | cert |
    certPath | macaroon | macaroonPath | fake | statePath | lockupTimeoutSeconds | sweepConcurrency |
    sendHintScidDenylist | receiveAcceptUnilateralGap | onchain | chainTipEsploraUrl | feeRateRefreshMs |
    feeRateStaleMs | limits | maxSwapSats | maxExposedSats | approvalThresholdSats | offers | minFillAmount |
    maxFillAmount | chargeCarrier | carrierPricing | quoteValiditySeconds | relay | url | protocol |
    healthPath | openRfqMaxBidsPerMinute | adPublish | cardRelays | storage | dir | swapDb | walletDb | http |
    host | port | admin | allowedHosts | restartEnabled | sentry | dsn | environment | release | notify |
    telegramBotToken | telegramChatId | slackWebhookUrl | balanceReportIntervalMinutes | diagnostics |
    latency | assets | corridors | evm | markets | chainId | rpcUrl | htlcAddress | privateKey |
    minConfirmations | minAgeSeconds | fastestSecondsPerBlock | slowestSecondsPerBlock |
    timelockFastestSecondsPerBlock | timelockSlowestSecondsPerBlock | gasLimit | maxFeePerGasCeiling |
    feeHeadroomSeconds | orderMarginSeconds | logScanRange | directClaimsOnly | enabled | minSats | maxSats |
    feeBps | feeFlatSats | feeCapSats | feeMinSats | minUnits | maxUnits | kind | chain | address | decimals |
    priceFeed | pricePath | assetId | approvalThreshold

  /** One end of a corridor: a bitcoin rail, or an asset by its label. */
  datatype Side = ArkadeBtc | LightningBtc | OnchainBtc | Asset(symbol: string, on: Option<string>)

  /** A key of the document: a fixed one, a chain's name, an asset's label, or a corridor's pair. */
  datatype Key =
    Fixed(word: Word) | ChainNamed(chainName: string) | Label(symbol: string, on: Option<string>) | Pair(from: Side, to: Side)

  datatype Value = Text(text: string) | Number(number: Numeral) | Flag(flag: bool) | List(entries: seq<string>)

  datatype Node = Leaf(value: Value) | Block(entries: Document)

  datatype Entry = Entry(key: Key, node: Node)

  /** A block's entries in the order their keys were first written. */
  type Document = seq<Entry>

  function Find(doc: Document, key: Key): Option<Node> {
    if doc == [] then None
    else if doc[0].key == key then Some(doc[0].node)
    else Find(doc[1..], key)
  }

  /** A key keeps its place when it is written again. */
  function Insert(doc: Document, key: Key, node: Node): Document {
    if doc == [] then [Entry(key, node)]
    else if doc[0].key == key then [Entry(key, node)] + doc[1..]
    else [doc[0]] + Insert(doc[1..], key, node)
  }

  function Keys(doc: Document): (r: seq<Key>)
    ensures |r| == |doc|
    ensures forall i :: 0 <= i < |doc| ==> r[i] == doc[i].key
  {
    seq(|doc|, i requires 0 <= i < |doc| => doc[i].key)
  }

  lemma {:induction false} InsertFind(doc: Document, key: Key, node: Node, other: Key)
    ensures Find(Insert(doc, key, node), other) == if other == key then Some(node) else Find(doc, other)
  {
    if doc != [] && doc[0].key != key {
      InsertFind(doc[1..], key, node, other);
      assert Insert(doc, key, node)[1..] == Insert(doc[1..], key, node);
    } else if doc != [] {
      assert Insert(doc, key, node)[1..] == doc[1..];
    }
  }

  lemma {:induction false} InsertKeys(doc: Document, key: Key, node: Node)
    ensures Keys(Insert(doc, key, node)) == if key in Keys(doc) then Keys(doc) else Keys(doc) + [key]
  {
    if doc != [] && doc[0].key != key {
      InsertKeys(doc[1..], key, node);
      assert Keys(doc) == [doc[0].key] + Keys(doc[1..]);
      assert Keys(Insert(doc, key, node)) == [doc[0].key] + Keys(Insert(doc[1..], key, node));
    }
  }

  lemma {:induction false} FindKeys(doc: Document, key: Key)
    ensures Find(doc, key).Some? <==> key in Keys(doc)
  {
    if doc != [] {
      FindKeys(doc[1..], key);
      assert Keys(doc) == [doc[0].key] + Keys(doc[1..]);
    }
  }

  lemma {:induction false} FindNth(doc: Document, i: nat)
    requires Distinct(Keys(doc)) && i < |doc|
    ensures Find(doc, doc[i].key) == Some(doc[i].node)
  {
    if i > 0 {
      assert doc[0].key == Keys(doc)[0] && doc[i].key == Keys(doc)[i];
      forall a, b | 0 <= a < b < |doc| - 1 ensures Keys(doc[1..])[a] != Keys(doc[1..])[b] {
        assert Keys(doc)[a + 1] != Keys(doc)[b + 1];
      }
      FindNth(doc[1..], i - 1);
    }
  }

  lemma {:induction false} FindInFirst(first: Document, second: Document, key: Key)
    ensures Find(first + second, key) == if Find(first, key).Some? then Find(first, key) else Find(second, key)
  {
    if first == [] {
      assert first + second == second;
    } else {
      assert (first + second)[1..] == first[1..] + second;
      FindInFirst(first[1..], second, key);
    }
  }

  /** The block under `key`, an empty one where there is none. */
  function Child(doc: Document, key: Key): Document {
    match Find(doc, key)
    case Some(Block(entries)) => entries
    case _ => []
  }

  /** The document with `node` at `path`, missing blocks made on the way; recursion for the source's walk. */
  function SetAt(doc: Document, path: seq<Key>, node: Node): Document
    requires path != []
    decreases |path|
  {
    if |path| == 1 then Insert(doc, path[0], node)
    else Insert(doc, path[0], Block(SetAt(Child(doc, path[0]), path[1..], node)))
  }

  /** The block at `path`, an empty one where there is none. */
  function Sub(doc: Document, path: seq<Key>): Document
    decreases |path|
  {
    if path == [] then doc else Sub(Child(doc, path[0]), path[1..])
  }

  function At(doc: Document, path: seq<Key>): Option<Node>
    requires path != []
  {
    Find(Sub(doc, path[..|path| - 1]), path[|path| - 1])
  }

  function KeysAt(doc: Document, path: seq<Key>): seq<Key> {
    Keys(Sub(doc, path))
  }

  /** Neither path leads through the other. */
  predicate Apart(p: seq<Key>, q: seq<Key>) {
    !(p <= q) && !(q <= p)
  }

  lemma ChildInsert(doc: Document, key: Key, node: Node, other: Key)
    ensures Child(Insert(doc, key, node), other) ==
            if other != key then Child(doc, other) else if node.Block? then node.entries else []
  {
    InsertFind(doc, key, node, other);
  }

  /** Writing below a block is writing in that block. */
  lemma {:induction false} PutUnder(doc: Document, path: seq<Key>, below: seq<Key>, node: Node)
    requires below != []
    ensures Sub(SetAt(doc, path + below, node), path) == SetAt(Sub(doc, path), below, node)
    decreases |path|
  {
    if path == [] {
      assert path + below == below;
    } else {
      var whole := path + below;
      assert whole[1..] == path[1..] + below;
      var child := Child(doc, path[0]);
      ChildInsert(doc, path[0], Block(SetAt(child, path[1..] + below, node)), path[0]);
      PutUnder(child, path[1..], below, node);
    }
  }

  /** What is written at a path is read back there. */
  lemma PutGet(doc: Document, path: seq<Key>, node: Node)
    requires path != []
    ensures At(SetAt(doc, path, node), path) == Some(node)
  {
    var n := |path| - 1;
    assert path == path[..n] + [path[n]];
    PutUnder(doc, path[..n], [path[n]], node);
    InsertFind(Sub(doc, path[..n]), path[n], node, path[n]);
  }

  /** What is written at one path changes no block it does not lead into or through. */
  lemma {:induction false} SubElsewhere(doc: Document, path: seq<Key>, node: Node, other: seq<Key>)
    requires path != [] && Apart(path, other)
    ensures Sub(SetAt(doc, path, node), other) == Sub(doc, other)
    decreases |path|
  {
    if |path| == 1 {
      ChildInsert(doc, path[0], node, other[0]);
      assert path == [path[0]];
    } else {
      var child := Child(doc, path[0]);
      ChildInsert(doc, path[0], Block(SetAt(child, path[1..], node)), other[0]);
      if path[0] == other[0] {
        assert path == [path[0]] + path[1..] && other == [other[0]] + other[1..];
        SubElsewhere(child, path[1..], node, other[1..]);
      }
    }
  }

  /** And is not seen at any path apart from it. */
  lemma PutElsewhere(doc: Document, path: seq<Key>, node: Node, other: seq<Key>)
    requires path != [] && other != [] && Apart(path, other)
    ensures At(SetAt(doc, path, node), other) == At(doc, other)
  {
    var n := |other| - 1;
    var block := other[..n];
    assert other == block + [other[n]];
    if block <= path {
      var below := path[n..];
      assert path == block + below && below != [];
      PutUnder(doc, block, below, node);
      assert path[..n] == block;
      if |below| == 1 {
        InsertFind(Sub(doc, block), below[0], node, other[n]);
      } else {
        InsertFind(Sub(doc, block), below[0], Block(SetAt(Child(Sub(doc, block), below[0]), below[1..], node)), other[n]);
      }
    } else {
      SubElsewhere(doc, path, node, block);
    }
  }

  function Append(keys: seq<Key>, key: Key): (r: seq<Key>)
    ensures forall k :: k in r <==> k in keys || k == key
  {
    if key in keys then keys else keys + [key]
  }

  /** Writing below a block adds at most one key to it, last. */
  lemma PutKeys(doc: Document, path: seq<Key>, below: seq<Key>, node: Node)
    requires below != []
    ensures KeysAt(SetAt(doc, path + below, node), path) == Append(KeysAt(doc, path), below[0])
  {
    var block := Sub(doc, path);
    PutUnder(doc, path, below, node);
    if |below| == 1 {
      InsertKeys(block, below[0], node);
    } else {
      InsertKeys(block, below[0], Block(SetAt(Child(block, below[0]), below[1..], node)));
    }
  }

  // ---- values as text ----

  datatype Kind = TextKind | NumberKind | FlagKind | ListKind | OnOff

  function Digit(c: char): (r: Option<nat>)
    ensures r.Some? ==> r.value < 10
  {
    if '0' <= c <= '9' then Some(c as nat - '0' as nat) else None
  }

  function ParseDigits(s: string): Option<nat> {
    if s == "" then Some(0)
    else
      var rest, d := ParseDigits(s[..|s| - 1]), Digit(s[|s| - 1]);
      if rest.None? || d.None? then None else Some(10 * rest.value + d.value)
  }

  /** A number by its whole part and its decimals, which end in no zero. */
  datatype Numeral = Numeral(whole: nat, decimals: string)

  predicate AllDigits(s: string) {
    forall c :: c in s ==> Digit(c).Some?
  }

  function TrimZeros(s: string): string {
    if s != "" && s[|s| - 1] == '0' then TrimZeros(s[..|s| - 1]) else s
  }

  function ParseNumber(s: string): Option<Numeral> {
    var parts := Split(s, '.');
    var whole := ParseDigits(parts[0]);
    if whole.None? || s == "" || s == "." then None
    else if |parts| == 1 then Some(Numeral(whole.value, ""))
    else if |parts| == 2 && AllDigits(parts[1]) then Some(Numeral(whole.value, TrimZeros(parts[1])))
    else None
  }

  function DigitChar(d: nat): (c: char)
    requires d < 10
    ensures Digit(c) == Some(d)
  {
    ['0', '1', '2', '3', '4', '5', '6', '7', '8', '9'][d]
  }

  function PrintNumber(n: nat): string {
    if n < 10 then [DigitChar(n)] else PrintNumber(n / 10) + [DigitChar(n % 10)]
  }

  function PrintNumeral(n: Numeral): string {
    if n.decimals == "" then PrintNumber(n.whole) else PrintNumber(n.whole) + "." + n.decimals
  }

  /** Digits without a leading zero. */
  predicate PlainNumber(s: string) {
    s != "" && AllDigits(s) && (|s| > 1 ==> s[0] != '0')
  }

  /** A plain number, with decimals or without, exact as a double and not so small that it prints with an exponent. */
  predicate PlainNumeral(s: string) {
    var parts := Split(s, '.');
    && |s| <= 16
    && PlainNumber(parts[0])
    && |parts[0]| <= 15
    && (|parts| == 1 ||
        (|parts| == 2 && parts[1] != "" && AllDigits(parts[1]) && parts[1][|parts[1]| - 1] != '0' &&
         (parts[0] == "0" ==> |parts[1]| <= 6)))
  }

  lemma NumeralPrinted(s: string)
    requires PlainNumeral(s)
    ensures ParseNumber(s).Some? && PrintNumeral(ParseNumber(s).value) == s
  {
    var parts := Split(s, '.');
    PrintParsed(parts[0]);
    JoinSplit(s, '.');
    if |parts| == 2 {
      assert parts[..1] == [parts[0]];
      assert Join(parts, '.') == parts[0] + "." + parts[1];
      assert s != "." by { if s == "." { SplitDot(); } }
    } else {
      assert s == parts[0];
    }
  }

  lemma SplitDot()
    ensures Split(".", '.') == ["", ""]
  {
    assert Split(""  , '.') == [""];
    assert "."[..0] == "";
  }

  lemma ParseStep(s: string)
    requires s != "" && Digit(s[|s| - 1]).Some?
    ensures var rest := ParseDigits(s[..|s| - 1]);
            ParseDigits(s) == if rest.None? then None else Some(10 * rest.value + Digit(s[|s| - 1]).value)
    ensures |s| == 1 ==> ParseDigits(s) == Digit(s[0])
    ensures Digit(s[0]) == Some(0) ==> s[0] == '0'
  {
    if |s| == 1 { assert ParseDigits(s[..0]) == Some(0); }
  }

  lemma PrintDigit(d: nat)
    requires d < 10
    ensures PrintNumber(d) == [DigitChar(d)]
  {
  }

  lemma PrintStep(rest: nat, d: nat)
    requires d < 10 && 0 < rest
    ensures PrintNumber(10 * rest + d) == PrintNumber(rest) + [DigitChar(d)]
  {
    assert (10 * rest + d) / 10 == rest && (10 * rest + d) % 10 == d;
  }

  lemma {:induction false} PrintParsed(s: string)
    requires PlainNumber(s)
    ensures ParseDigits(s).Some? && PrintNumber(ParseDigits(s).value) == s
    ensures s[0] != '0' ==> ParseDigits(s).value > 0
  {
    hide PrintNumber, ParseDigits, Digit;
    var n := |s| - 1;
    assert s == s[..n] + [s[n]] && s[n] in s;
    DigitOnly(s[n]);
    ParseStep(s);
    if n == 0 {
      PrintDigit(Digit(s[0]).value);
    } else {
      assert forall c :: c in s[..n] ==> c in s;
      PrintParsed(s[..n]);
      PrintStep(ParseDigits(s[..n]).value, Digit(s[n]).value);
    }
  }

  lemma DigitOnly(c: char)
    requires Digit(c).Some?
    ensures DigitChar(Digit(c).value) == c
  {
  }

  function Join(entries: seq<string>, separator: char): string {
    if entries == [] then ""
    else if |entries| == 1 then entries[0]
    else Join(entries[..|entries| - 1], separator) + [separator] + entries[|entries| - 1]
  }

  /** The parts of `s` between separators. */
  function Split(s: string, separator: char): (r: seq<string>)
    ensures r != []
  {
    if s == "" then [""]
    else
      var r := Split(s[..|s| - 1], separator);
      if s[|s| - 1] == separator then r + [""] else r[|r| - 1 := r[|r| - 1] + [s[|s| - 1]]]
  }

  lemma {:induction false} JoinSplit(s: string, separator: char)
    ensures Join(Split(s, separator), separator) == s
  {
    if s != "" {
      var n := |s| - 1;
      var r := Split(s[..n], separator);
      JoinSplit(s[..n], separator);
      var next := Split(s, separator);
      assert s == s[..n] + [s[n]];
      if s[n] == separator {
        assert next[..|next| - 1] == r;
      } else if |r| > 1 {
        assert next[..|next| - 1] == r[..|r| - 1];
      }
    }
  }

  predicate IsBlank(c: char) {
    c == ' ' || c == '\t' || c == '\n' || c == '\r'
  }

  function TrimStart(s: string): string {
    if s != "" && IsBlank(s[0]) then TrimStart(s[1..]) else s
  }

  function TrimEnd(s: string): string {
    if s != "" && IsBlank(s[|s| - 1]) then TrimEnd(s[..|s| - 1]) else s
  }

  function Trim(s: string): string {
    TrimEnd(TrimStart(s))
  }

  function TrimAll(entries: seq<string>): (r: seq<string>)
    ensures |r| == |entries|
  {
    seq(|entries|, i requires 0 <= i < |entries| => Trim(entries[i]))
  }

  /** A raw setting as the document holds it; text that does not parse stays text. */
  function Decode(kind: Kind, raw: string): Value {
    match kind
    case TextKind => Text(raw)
    case NumberKind => if ParseNumber(raw).Some? then Number(ParseNumber(raw).value) else Text(raw)
    case FlagKind => if raw == "true" then Flag(true) else if raw == "false" then Flag(false) else Text(raw)
    case ListKind => List(Filter(TrimAll(Split(raw, ',')), (entry: string) => entry != ""))
    case OnOff => Flag(raw == "1")
  }

  function Encode(kind: Kind, value: Value): string {
    match value
    case Text(text) => if kind == OnOff then (if text != "" then "1" else "0") else text
    case Number(number) => if kind == OnOff then (if number != Numeral(0, "") then "1" else "0") else PrintNumeral(number)
    case Flag(flag) => if kind == OnOff then (if flag then "1" else "0") else (if flag then "true" else "false")
    case List(entries) => if kind == OnOff then "1" else Join(entries, ',')
  }

  /** The spelling of each value that survives: what a list or a number is written back as. */
  predicate Canonical(kind: Kind, raw: string) {
    match kind
    case TextKind => true
    case NumberKind => PlainNumeral(raw)
    case FlagKind => true
    case ListKind => forall entry :: entry in Split(raw, ',') ==> entry != "" && Trim(entry) == entry
    case OnOff => raw == "1" || raw == "0"
  }

  /** A setting in canonical form is written back as it was. */
  lemma EncodeDecode(kind: Kind, raw: string)
    requires Canonical(kind, raw)
    ensures Encode(kind, Decode(kind, raw)) == raw
  {
    match kind
    case NumberKind => NumeralPrinted(raw);
    case ListKind =>
      JoinSplit(raw, ',');
      ListDecoded(raw);
    case _ =>
  }

  lemma ListDecoded(raw: string)
    requires Canonical(ListKind, raw)
    ensures Decode(ListKind, raw) == List(Split(raw, ','))
  {
    var entries := Split(raw, ',');
    assert forall i :: 0 <= i < |entries| ==> entries[i] in entries;
    assert TrimAll(entries) == entries;
    KeepsAll(entries);
  }

  lemma {:induction false} KeepsAll(entries: seq<string>)
    requires forall entry :: entry in entries ==> entry != ""
    ensures Filter(entries, (entry: string) => entry != "") == entries
  {
    if entries != [] {
      var n := |entries| - 1;
      assert entries == entries[..n] + [entries[n]] && entries[n] in entries;
      assert forall entry :: entry in entries[..n] ==> entry in entries;
      KeepsAll(entries[..n]);
    }
  }
}
