/**
 * The old environment as a document: every setting at its place, the fixed corridors opened,
 * each ERC-20 token and Arkade asset labelled, and the old direction names resolved.
 */
module ConfigExport {
  import opened Util
  import opened ConfigTrees
  import opened ConfigSchema

  /** A variable: a setting's id, the name it had before, or an asset's direction by its old name. */
  datatype Name = Id(knob: Knob) | Legacy(knob: Knob) | Buy(symbol: string) | Sell(symbol: string)

  type Env = map<Name, string>

  /** A market as the table keeps it, leg by leg; BTC is `None`. */
  datatype MarketPair = MarketPair(base: Option<string>, quote: Option<string>)

  datatype Token = Token(symbol: string, address: string, decimals: nat)

  datatype AssetToken = AssetToken(symbol: string, assetId: string)

  datatype ExportError =
    BadEntry(entry: string) | SymbolTwice(symbol: string) | AddressTwice(address: string)
    | DirectionWithoutRow(symbol: string)

  /** A variable holding nothing but blanks counts as absent. */
  function Read(env: Env, name: Name): Option<string> {
    if name in env && Trim(env[name]) != "" then Some(Trim(env[name])) else None
  }

  const Renamed: seq<Knob> := [
    Plain(ArkadeRail, mnemonic), Plain(ArkadeRail, operatorUrl), Plain(ArkadeRail, esploraUrl),
    Plain(ArkadeRail, unilateralExitDelay), Plain(Storage, walletDb)]

  function LegacyName(knob: Knob): Name {
    if knob in Renamed then Legacy(knob) else Id(knob)
  }

  /** A setting under its id, or under the name it had. */
  function Raw(env: Env, knob: Knob): Option<string> {
    if Read(env, Id(knob)).Some? then Read(env, Id(knob)) else Read(env, LegacyName(knob))
  }

  // ---- the token lists ----

  predicate IsSymbol(s: string) {
    0 < |s| <= 12 && 'A' <= s[0] <= 'Z' && forall c :: c in s ==> 'A' <= c <= 'Z' || '0' <= c <= '9'
  }

  predicate IsHex(s: string) {
    forall c :: c in s ==> '0' <= c <= '9' || 'a' <= c <= 'f'
  }

  predicate IsAddress(s: string) {
    |s| == 42 && s[..2] == "0x" && IsHex(s[2..])
  }

  predicate IsAssetId(s: string) {
    |s| == 68 && IsHex(s)
  }

  const MaxDecimals: nat := 36

  function ParseToken(entry: string): Result<Token, ExportError> {
    var parts := Split(Trim(entry), ':');
    if |parts| != 3 || parts[0] == "" || parts[1] == "" || parts[2] == "" then Err(BadEntry(entry))
    else
      var number := ParseNumber(parts[2]);
      if number.None? || number.value.decimals != "" || number.value.whole > MaxDecimals then Err(BadEntry(entry))
      else if !IsSymbol(parts[0]) || !IsAddress(parts[1]) then Err(BadEntry(entry))
      else Ok(Token(parts[0], parts[1], number.value.whole))
  }

  /** The tokens of a list, in its order; a symbol or an address given twice is refused. */
  function ParseTokens(entries: seq<string>): (r: Result<seq<Token>, ExportError>)
    ensures r.Ok? ==> |r.value| == |entries|
  {
    if entries == [] then Ok([])
    else
      var n := |entries| - 1;
      match ParseTokens(entries[..n])
      case Err(error) => Err(error)
      case Ok(earlier) =>
        match ParseToken(entries[n])
        case Err(error) => Err(error)
        case Ok(token) =>
          if exists t :: t in earlier && t.symbol == token.symbol then Err(SymbolTwice(token.symbol))
          else if exists t :: t in earlier && t.address == token.address then Err(AddressTwice(token.address))
          else Ok(earlier + [token])
  }

  function TokensOf(env: Env): Result<seq<Token>, ExportError> {
    match Read(env, Id(EvmTokens))
    case None => Ok([])
    case Some(raw) => ParseTokens(Split(raw, ','))
  }

  function ParseAsset(entry: string): Result<AssetToken, ExportError> {
    var parts := Split(Trim(entry), ':');
    if |parts| != 2 || !IsSymbol(parts[0]) || !IsAssetId(parts[1]) then Err(BadEntry(entry))
    else Ok(AssetToken(parts[0], parts[1]))
  }

  function ParseAssets(entries: seq<string>): (r: Result<seq<AssetToken>, ExportError>)
    ensures r.Ok? ==> |r.value| == |entries|
  {
    if entries == [] then Ok([])
    else
      var n := |entries| - 1;
      match ParseAssets(entries[..n])
      case Err(error) => Err(error)
      case Ok(earlier) =>
        match ParseAsset(entries[n])
        case Err(error) => Err(error)
        case Ok(token) =>
          if exists t :: t in earlier && t.symbol == token.symbol then Err(SymbolTwice(token.symbol))
          else if exists t :: t in earlier && t.assetId == token.assetId then Err(AddressTwice(token.assetId))
          else Ok(earlier + [token])
  }

  function AssetsOf(env: Env): Result<seq<AssetToken>, ExportError> {
    match Read(env, Id(AssetMarkets))
    case None => Ok([])
    case Some(raw) => ParseAssets(Split(raw, ','))
  }

  // ---- the document, step by step ----

  function ChainName(env: Env): string {
    match Read(env, Id(Evm(chainId)))
    case Some(id) => if id == "1" then "ethereum" else if id == "42161" then "arbitrum" else if id == "8453" then "base" else "evm"
    case None => "evm"
  }

  /** A raw value at a setting's place, as the type the shape gives that place; nothing when unset. */
  function Put(doc: Document, chainName: string, knob: Knob, raw: Option<string>): Document {
    var path := SlotPath(Setting(knob), chainName);
    if raw.None? || path == [] then doc else SetAt(doc, path, Leaf(Decode(KindAt(path), raw.value)))
  }

  function PutAll(doc: Document, env: Env, chainName: string, knobs: seq<Knob>): Document {
    if knobs == [] then doc
    else
      var n := |knobs| - 1;
      Put(PutAll(doc, env, chainName, knobs[..n]), chainName, knobs[n], Raw(env, knobs[n]))
  }

  function TermsOf(stem: Stem): seq<Knob> {
    TermsIn(stem, FieldsOf(FamilyOf(stem)))
  }

  function TermsIn(stem: Stem, fields: seq<Word>): (r: seq<Knob>)
    ensures forall knob :: knob in r <==> knob.Term? && knob.stem == stem && knob.field in fields
  {
    if fields == [] then [] else TermsIn(stem, fields[..|fields| - 1]) + [Term(stem, fields[|fields| - 1])]
  }

  function OpenPair(doc: Document, stem: Stem, chainName: string): Document {
    SetAt(doc, [Fixed(corridors), PairOf(stem, chainName)], Block([]))
  }

  function PutFixed(doc: Document, env: Env, chainName: string, stems: seq<Stem>): Document {
    if stems == [] then doc
    else
      var n := |stems| - 1;
      PutAll(OpenPair(PutFixed(doc, env, chainName, stems[..n]), stems[n], chainName), env, chainName, TermsOf(stems[n]))
  }

  function ChainKnobs(fields: seq<Word>): (r: seq<Knob>)
    ensures forall knob :: knob in r <==> knob.Evm? && knob.field in fields
  {
    if fields == [] then [] else ChainKnobs(fields[..|fields| - 1]) + [Evm(fields[|fields| - 1])]
  }

  function OpenChain(doc: Document, chainName: string): Document {
    if At(doc, [Fixed(rails), Fixed(evm)]).Some? then doc
    else SetAt(doc, [Fixed(rails), Fixed(evm), ChainNamed(chainName)], Block([]))
  }

  function TextAt(key: Word, value: Option<string>): Document {
    if value.Some? then [Entry(Fixed(key), Leaf(Text(value.value)))] else []
  }

  function TokenNode(env: Env, chainName: string, token: Token): Node {
    Block(
      TextAt(kind, Some("erc20")) + TextAt(chain, Some(chainName)) + TextAt(address, Some(token.address))
      + [Entry(Fixed(decimals), Leaf(Number(Numeral(token.decimals, ""))))]
      + TextAt(priceFeed, Read(env, Id(PriceFeed(token.symbol)))) + TextAt(pricePath, Read(env, Id(PricePath(token.symbol)))))
  }

  function PutToken(doc: Document, env: Env, chainName: string, token: Token): Document {
    var named := SetAt(OpenChain(doc, chainName), [Fixed(assets), Label(token.symbol, Some(chainName))], TokenNode(env, chainName, token));
    var sending := PutAll(named, env, chainName, TermsOf(EvmSend(token.symbol)));
    PutAll(sending, env, chainName, TermsOf(EvmReceive(token.symbol)))
  }

  function PutTokens(doc: Document, env: Env, chainName: string, tokens: seq<Token>): Document {
    if tokens == [] then doc
    else PutToken(PutTokens(doc, env, chainName, tokens[..|tokens| - 1]), env, chainName, tokens[|tokens| - 1])
  }

  function AssetNode(env: Env, token: AssetToken): Node {
    Block(
      TextAt(kind, Some("arkade")) + TextAt(assetId, Some(token.assetId))
      + TextAt(approvalThreshold, Read(env, Id(Threshold(token.symbol)))))
  }

  predicate IsMarketOf(row: MarketPair, asset: string) {
    && (if row.base.Some? then row.base else row.quote) == Some(asset)
    && !(row.base.Some? && row.quote.Some?)
  }

  /** The first row with the asset on one leg and BTC on the other. */
  function FindRow(rows: seq<MarketPair>, asset: string): (r: Option<MarketPair>)
    ensures r.Some? ==> r.value in rows && IsMarketOf(r.value, asset)
    ensures r.None? ==> forall row :: row in rows ==> !IsMarketOf(row, asset)
  {
    if rows == [] then None
    else if IsMarketOf(rows[0], asset) then Some(rows[0])
    else FindRow(rows[1..], asset)
  }

  /** The direction a client gives the asset in, or gets it in. */
  function Direction(symbol: string, givesAsset: bool): Knob {
    Term(if givesAsset then ToBtc(symbol) else FromBtc(symbol), enabled)
  }

  /** The old names were the row's: `Buy` is the client giving the base. */
  function PutDirections(doc: Document, env: Env, chainName: string, symbol: string, assetIsBase: bool): Document {
    var bought := Put(doc, chainName, Direction(symbol, assetIsBase), Read(env, Buy(symbol)));
    Put(bought, chainName, Direction(symbol, !assetIsBase), Read(env, Sell(symbol)))
  }

  /** An asset under its symbol, and its directions by their own settings. */
  function PutNamed(doc: Document, env: Env, chainName: string, token: AssetToken): Document {
    var symbol := token.symbol;
    var named := SetAt(doc, [Fixed(assets), Label(symbol, None)], AssetNode(env, token));
    var gives := Put(named, chainName, Direction(symbol, true), Read(env, Id(Direction(symbol, true))));
    Put(gives, chainName, Direction(symbol, false), Read(env, Id(Direction(symbol, false))))
  }

  function PutAsset(doc: Document, env: Env, chainName: string, rows: seq<MarketPair>, token: AssetToken): Result<Document, ExportError> {
    var named := PutNamed(doc, env, chainName, token);
    match FindRow(rows, token.assetId)
    case Some(row) => Ok(PutDirections(named, env, chainName, token.symbol, row.base == Some(token.assetId)))
    case None =>
      if Read(env, Buy(token.symbol)).Some? || Read(env, Sell(token.symbol)).Some?
      then Err(DirectionWithoutRow(token.symbol)) else Ok(named)
  }

  function PutAssets(doc: Document, env: Env, chainName: string, rows: seq<MarketPair>, tokens: seq<AssetToken>): Result<Document, ExportError> {
    if tokens == [] then Ok(doc)
    else
      match PutAssets(doc, env, chainName, rows, tokens[..|tokens| - 1])
      case Err(error) => Err(error)
      case Ok(earlier) => PutAsset(earlier, env, chainName, rows, tokens[|tokens| - 1])
  }

  /** The symbol an asset id is listed under. */
  function SymbolOf(tokens: seq<AssetToken>, leg: string): (r: Option<string>)
    ensures r.Some? ==> exists t :: t in tokens && t.assetId == leg && t.symbol == r.value
    ensures r.None? ==> forall t :: t in tokens ==> t.assetId != leg
  {
    if tokens == [] then None
    else if tokens[|tokens| - 1].assetId == leg then Some(tokens[|tokens| - 1].symbol)
    else SymbolOf(tokens[..|tokens| - 1], leg)
  }

  function LegShown(tokens: seq<AssetToken>, leg: string): string {
    if SymbolOf(tokens, leg).Some? then SymbolOf(tokens, leg).value else leg
  }

  function LegsShown(tokens: seq<AssetToken>, legs: seq<string>): (r: seq<string>)
    ensures |r| == |legs|
  {
    seq(|legs|, i requires 0 <= i < |legs| => LegShown(tokens, legs[i]))
  }

  function MarketShown(tokens: seq<AssetToken>, market: string): string {
    Join(LegsShown(tokens, Split(Trim(market), '/')), '/')
  }

  function MarketsShown(tokens: seq<AssetToken>, markets: seq<string>): (r: seq<string>)
    ensures |r| == |markets|
  {
    seq(|markets|, i requires 0 <= i < |markets| => MarketShown(tokens, markets[i]))
  }

  function PutMarkets(doc: Document, env: Env, tokens: seq<AssetToken>): Document {
    match Raw(env, OfferMarkets)
    case None => doc
    case Some(raw) => SetAt(doc, [Fixed(offers), Fixed(markets)], Leaf(List(MarketsShown(tokens, Split(raw, ',')))))
  }

  /** The document for an environment, given the stored market rows. */
  function DocumentOf(env: Env, rows: seq<MarketPair>): Result<Document, ExportError> {
    var chainName := ChainName(env);
    var plain := PutAll([], env, chainName, Settings);
    var fixed := PutFixed(plain, env, chainName, FixedStems);
    var chained := PutAll(fixed, env, chainName, ChainKnobs(EvmFields));
    match TokensOf(env)
    case Err(error) => Err(error)
    case Ok(tokens) =>
      match AssetsOf(env)
      case Err(error) => Err(error)
      case Ok(listed) =>
        match PutAssets(PutTokens(chained, env, chainName, tokens), env, chainName, rows, listed)
        case Err(error) => Err(error)
        case Ok(doc) => Ok(PutMarkets(doc, env, listed))
  }

  // ---- the loops ----

  method PutSettings(doc0: Document, env: Env, chainName: string, knobs: seq<Knob>) returns (doc: Document)
    ensures doc == PutAll(doc0, env, chainName, knobs)
  {
    doc := doc0;
    for i := 0 to |knobs|
      invariant doc == PutAll(doc0, env, chainName, knobs[..i])
    {
      assert knobs[..i + 1][..i] == knobs[..i];
      var raw, path := Raw(env, knobs[i]), SlotPath(Setting(knobs[i]), chainName);
      if raw.None? || path == [] { continue; }
      doc := SetAt(doc, path, Leaf(Decode(KindAt(path), raw.value)));
    }
    assert knobs[..|knobs|] == knobs;
  }

  method ExportTokens(doc0: Document, env: Env, chainName: string, tokens: seq<Token>) returns (doc: Document)
    ensures doc == PutTokens(doc0, env, chainName, tokens)
  {
    doc := doc0;
    for i := 0 to |tokens|
      invariant doc == PutTokens(doc0, env, chainName, tokens[..i])
    {
      assert tokens[..i + 1][..i] == tokens[..i];
      var token := tokens[i];
      if At(doc, [Fixed(rails), Fixed(evm)]).None? {
        doc := SetAt(doc, [Fixed(rails), Fixed(evm), ChainNamed(chainName)], Block([]));
      }
      doc := SetAt(doc, [Fixed(assets), Label(token.symbol, Some(chainName))], TokenNode(env, chainName, token));
      doc := PutSettings(doc, env, chainName, TermsOf(EvmSend(token.symbol)));
      doc := PutSettings(doc, env, chainName, TermsOf(EvmReceive(token.symbol)));
    }
    assert tokens[..|tokens|] == tokens;
  }

  method ExportAssets(doc0: Document, env: Env, chainName: string, rows: seq<MarketPair>, tokens: seq<AssetToken>)
    returns (r: Result<Document, ExportError>)
    ensures r == PutAssets(doc0, env, chainName, rows, tokens)
  {
    var doc := doc0;
    for i := 0 to |tokens|
      invariant PutAssets(doc0, env, chainName, rows, tokens[..i]) == Ok(doc)
    {
      assert tokens[..i + 1][..i] == tokens[..i];
      match PutAsset(doc, env, chainName, rows, tokens[i]) {
        case Err(error) =>
          FailsFrom(doc0, env, chainName, rows, tokens, i + 1);
          return Err(error);
        case Ok(next) =>
          doc := next;
      }
    }
    assert tokens[..|tokens|] == tokens;
    return Ok(doc);
  }

  lemma {:induction false} FailsFrom(doc: Document, env: Env, chainName: string, rows: seq<MarketPair>, tokens: seq<AssetToken>, i: nat)
    requires i <= |tokens| && PutAssets(doc, env, chainName, rows, tokens[..i]).Err?
    ensures PutAssets(doc, env, chainName, rows, tokens) == PutAssets(doc, env, chainName, rows, tokens[..i])
  {
    if i < |tokens| {
      assert tokens[..|tokens| - 1][..i] == tokens[..i];
      FailsFrom(doc, env, chainName, rows, tokens[..|tokens| - 1], i);
    } else {
      assert tokens[..i] == tokens;
    }
  }

  method ExportFixed(doc0: Document, env: Env, chainName: string) returns (doc: Document)
    ensures doc == PutFixed(doc0, env, chainName, FixedStems)
  {
    hide PutAll, OpenPair, TermsOf;
    doc := doc0;
    for k := 0 to |FixedStems|
      invariant doc == PutFixed(doc0, env, chainName, FixedStems[..k])
    {
      assert FixedStems[..k + 1][..k] == FixedStems[..k];
      doc := OpenPair(doc, FixedStems[k], chainName);
      doc := PutSettings(doc, env, chainName, TermsOf(FixedStems[k]));
    }
    assert FixedStems[..|FixedStems|] == FixedStems;
  }

  method EnvToDocument(env: Env, rows: seq<MarketPair>) returns (r: Result<Document, ExportError>)
    ensures r == DocumentOf(env, rows)
  {
    hide PutAll, PutFixed, PutTokens, PutAssets, PutMarkets, TokensOf, AssetsOf, ChainName, Settings, FixedStems, EvmFields;
    var chainName := ChainName(env);
    var doc := PutSettings([], env, chainName, Settings);
    doc := ExportFixed(doc, env, chainName);
    doc := PutSettings(doc, env, chainName, ChainKnobs(EvmFields));
    match TokensOf(env) {
      case Err(error) => return Err(error);
      case Ok(tokens) => doc := ExportTokens(doc, env, chainName, tokens);
    }
    match AssetsOf(env) {
      case Err(error) => return Err(error);
      case Ok(tokens) =>
        var put := ExportAssets(doc, env, chainName, rows, tokens);
        if put.Err? { return put; }
        return Ok(PutMarkets(put.value, env, tokens));
    }
  }
}
