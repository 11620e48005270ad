/**
 * A configuration document as settings: the values at fixed paths, the chain's, the assets
 * by their labels, and each corridor's terms, with the refusals on the way.
 */
module ConfigFlatten {
  import opened Util
  import opened ConfigTrees
  import opened ConfigSchema
  import opened ConfigExport

  type Knobs = map<Knob, string>

  datatype AssetEntry =
    Erc20(on: string, address: string, decimals: Numeral, priceFeed: Option<string>, pricePath: Option<string>)
    | ArkadeAsset(assetId: string, threshold: Option<string>)

  /** An asset of the document under the symbol its label starts with. */
  datatype Labelled = Labelled(key: Key, symbol: string, entry: AssetEntry)

  datatype FlattenError =
    BadShape(key: Key) | BadLabel(key: Key) | BitcoinLabel(key: Key) | SymbolShared(symbol: string) | UnknownChain(on: string)
    | UnknownCorridor(key: Key) | FieldNotValid(key: Key, field: Key)

  function Get(knobs: Knobs, knob: Knob): Option<string> {
    if knob in knobs then Some(knobs[knob]) else None
  }

  function ValueOf(node: Option<Node>): Option<Value> {
    match node
    case Some(Leaf(value)) => Some(value)
    case _ => None
  }

  /** Sets a setting the document has a value for. */
  function Set(knobs: Knobs, knob: Knob, value: Option<Value>): Knobs {
    if value.Some? then knobs[knob := Encode(KindOf(Setting(knob)), value.value)] else knobs
  }

  // ---- the values at fixed paths, and the chain's ----

  function PlainValue(doc: Document, knob: Knob): Option<Value> {
    var path := SlotPath(Setting(knob), "");
    if path == [] then None else ValueOf(At(doc, path))
  }

  function SetPlain(knobs: Knobs, doc: Document, plain: seq<Knob>): Knobs {
    if plain == [] then knobs
    else
      var n := |plain| - 1;
      Set(SetPlain(knobs, doc, plain[..n]), plain[n], PlainValue(doc, plain[n]))
  }

  function Entries(node: Node): Document {
    if node.Block? then node.entries else []
  }

  function SetChain(knobs: Knobs, fields: Document, words: seq<Word>): Knobs {
    if words == [] then knobs
    else
      var n := |words| - 1;
      Set(SetChain(knobs, fields, words[..n]), Evm(words[n]), ValueOf(Find(fields, Fixed(words[n]))))
  }

  function SetChains(knobs: Knobs, chains: Document): Knobs {
    if chains == [] then knobs
    else
      var n := |chains| - 1;
      SetChain(SetChains(knobs, chains[..n]), Entries(chains[n].node), EvmFields)
  }

  // ---- the assets ----

  function UpperChar(c: char): char {
    if 'a' <= c <= 'z' then (c as int - 32) as char else c
  }

  function Upper(s: string): (r: string)
    ensures |r| == |s|
  {
    seq(|s|, i requires 0 <= i < |s| => UpperChar(s[i]))
  }

  function TextOf(fields: Document, word: Word): Option<string> {
    match Find(fields, Fixed(word))
    case Some(Leaf(Text(text))) => Some(text)
    case _ => None
  }

  /** What an asset's entry says, when it has the shape of one. */
  function EntryOf(fields: Document): Option<AssetEntry> {
    match TextOf(fields, kind)
    case None => None
    case Some(text) =>
      if text == "erc20" then
        match (TextOf(fields, chain), TextOf(fields, address), Find(fields, Fixed(decimals)))
        case (Some(on), Some(address), Some(Leaf(Number(number)))) =>
          Some(Erc20(on, address, number, TextOf(fields, priceFeed), TextOf(fields, pricePath)))
        case _ => None
      else if text == "arkade" then
        match TextOf(fields, assetId)
        case Some(id) => Some(ArkadeAsset(id, TextOf(fields, approvalThreshold)))
        case None => None
      else None
  }

  function ReadAsset(earlier: seq<Labelled>, key: Key, fields: Document, chains: seq<Key>): Result<Labelled, FlattenError> {
    if !key.Label? || !IsSymbol(Upper(key.symbol)) then Err(BadLabel(key))
    else
      var symbol := Upper(key.symbol);
      match EntryOf(fields)
      case None => Err(BadShape(key))
      case Some(entry) =>
        if symbol == "BTC" && entry.ArkadeAsset? then Err(BitcoinLabel(key))
        else if exists a :: a in earlier && a.symbol == symbol && a.entry.Erc20? == entry.Erc20? then Err(SymbolShared(symbol))
        else if entry.Erc20? && ChainNamed(entry.on) !in chains then Err(UnknownChain(entry.on))
        else Ok(Labelled(key, symbol, entry))
  }

  function ReadAssets(assets: Document, chains: seq<Key>): (r: Result<seq<Labelled>, FlattenError>)
    ensures r.Ok? ==> |r.value| == |assets| && forall i :: 0 <= i < |assets| ==> r.value[i].key == assets[i].key
  {
    if assets == [] then Ok([])
    else
      var n := |assets| - 1;
      match ReadAssets(assets[..n], chains)
      case Err(error) => Err(error)
      case Ok(earlier) =>
        match ReadAsset(earlier, assets[n].key, Entries(assets[n].node), chains)
        case Err(error) => Err(error)
        case Ok(asset) => Ok(earlier + [asset])
  }

  function SetText(knobs: Knobs, knob: Knob, text: Option<string>): Knobs {
    if text.Some? then knobs[knob := text.value] else knobs
  }

  function SetAsset(knobs: Knobs, asset: Labelled): Knobs {
    match asset.entry
    case Erc20(_, _, _, feed, path) => SetText(SetText(knobs, PriceFeed(asset.symbol), feed), PricePath(asset.symbol), path)
    case ArkadeAsset(_, threshold) => SetText(knobs, Threshold(asset.symbol), threshold)
  }

  function SetAssets(knobs: Knobs, labelled: seq<Labelled>): Knobs {
    if labelled == [] then knobs else SetAsset(SetAssets(knobs, labelled[..|labelled| - 1]), labelled[|labelled| - 1])
  }

  function TokenText(symbol: string, address: string, decimals: Numeral): string {
    symbol + ":" + address + ":" + PrintNumeral(decimals)
  }

  function TokenTexts(labelled: seq<Labelled>): seq<string> {
    if labelled == [] then []
    else
      var last := labelled[|labelled| - 1];
      TokenTexts(labelled[..|labelled| - 1])
      + if last.entry.Erc20? then [TokenText(last.symbol, last.entry.address, last.entry.decimals)] else []
  }

  function AssetTexts(labelled: seq<Labelled>): seq<string> {
    if labelled == [] then []
    else
      var last := labelled[|labelled| - 1];
      AssetTexts(labelled[..|labelled| - 1]) + if last.entry.ArkadeAsset? then [last.symbol + ":" + last.entry.assetId] else []
  }

  function ListText(texts: seq<string>): Option<string> {
    if texts == [] then None else Some(Join(texts, ','))
  }

  function SetLists(knobs: Knobs, labelled: seq<Labelled>): Knobs {
    SetText(SetText(knobs, EvmTokens, ListText(TokenTexts(labelled))), AssetMarkets, ListText(AssetTexts(labelled)))
  }

  // ---- the corridors ----

  function SideOf(key: Key): Side
    requires key.Label?
  {
    Asset(key.symbol, key.on)
  }

  /** The corridor a pair names in a document with these assets; a later asset's takes the place of an earlier one's. */
  function StemFor(labelled: seq<Labelled>, pair: Key): Option<Stem> {
    if labelled == [] then
      match pair
      case Pair(ArkadeBtc, LightningBtc) => Some(LnSend)
      case Pair(LightningBtc, ArkadeBtc) => Some(LnReceive)
      case Pair(ArkadeBtc, OnchainBtc) => Some(OnchainSend)
      case _ => None
    else
      var last := labelled[|labelled| - 1];
      if last.key.Label? && pair == Pair(ArkadeBtc, SideOf(last.key)) then
        Some(if last.entry.Erc20? then EvmSend(last.symbol) else FromBtc(last.symbol))
      else if last.key.Label? && pair == Pair(SideOf(last.key), ArkadeBtc) then
        Some(if last.entry.Erc20? then EvmReceive(last.symbol) else ToBtc(last.symbol))
      else StemFor(labelled[..|labelled| - 1], pair)
  }

  /** The fixed corridors are off unless the document opens them. */
  function AllOff(knobs: Knobs, stems: seq<Stem>): Knobs {
    if stems == [] then knobs
    else AllOff(knobs, stems[..|stems| - 1])[Term(stems[|stems| - 1], enabled) := "false"]
  }

  function SetTerms(knobs: Knobs, pair: Key, stem: Stem, terms: Document): Result<Knobs, FlattenError> {
    if terms == [] then Ok(knobs)
    else
      var n := |terms| - 1;
      match SetTerms(knobs, pair, stem, terms[..n])
      case Err(error) => Err(error)
      case Ok(earlier) =>
        if !IsField(stem, terms[n].key) then Err(FieldNotValid(pair, terms[n].key))
        else Ok(Set(earlier, Term(stem, terms[n].key.word), ValueOf(Some(terms[n].node))))
  }

  /** A corridor the document names is on unless its terms say otherwise. */
  function SetCorridor(knobs: Knobs, labelled: seq<Labelled>, pair: Key, terms: Document): Result<Knobs, FlattenError> {
    match StemFor(labelled, pair)
    case None => Err(UnknownCorridor(pair))
    case Some(stem) => SetTerms(knobs[Term(stem, enabled) := "true"], pair, stem, terms)
  }

  function SetCorridors(knobs: Knobs, labelled: seq<Labelled>, entries: Document): Result<Knobs, FlattenError> {
    if entries == [] then Ok(knobs)
    else
      var n := |entries| - 1;
      match SetCorridors(knobs, labelled, entries[..n])
      case Err(error) => Err(error)
      case Ok(earlier) => SetCorridor(earlier, labelled, entries[n].key, Entries(entries[n].node))
  }

  // ---- the offer markets ----

  function LabelText(key: Key): string {
    match key
    case Label(symbol, Some(on)) => symbol + "@" + on
    case Label(symbol, None) => symbol
    case _ => ""
  }

  /** The asset id behind a leg that is an Arkade asset's label. */
  function IdOf(labelled: seq<Labelled>, leg: string): (r: Option<string>)
    ensures r.Some? ==> exists a :: a in labelled && a.entry.ArkadeAsset? && LabelText(a.key) == leg && a.entry.assetId == r.value
    ensures r.None? ==> forall a :: a in labelled && a.entry.ArkadeAsset? ==> LabelText(a.key) != leg
  {
    if labelled == [] then None
    else
      var last := labelled[|labelled| - 1];
      if last.entry.ArkadeAsset? && LabelText(last.key) == leg then Some(last.entry.assetId)
      else IdOf(labelled[..|labelled| - 1], leg)
  }

  function LegRead(labelled: seq<Labelled>, leg: string): string {
    if IdOf(labelled, leg).Some? then IdOf(labelled, leg).value else leg
  }

  function LegsRead(labelled: seq<Labelled>, legs: seq<string>): (r: seq<string>)
    ensures |r| == |legs|
  {
    seq(|legs|, i requires 0 <= i < |legs| => LegRead(labelled, legs[i]))
  }

  function MarketRead(labelled: seq<Labelled>, market: string): string {
    Join(LegsRead(labelled, Split(market, '/')), '/')
  }

  function MarketsRead(labelled: seq<Labelled>, markets: seq<string>): (r: seq<string>)
    ensures |r| == |markets|
  {
    seq(|markets|, i requires 0 <= i < |markets| => MarketRead(labelled, markets[i]))
  }

  function SetMarkets(knobs: Knobs, labelled: seq<Labelled>, value: Option<Value>): Knobs {
    match value
    case Some(List(entries)) => knobs[OfferMarkets := Join(MarketsRead(labelled, entries), ',')]
    case _ => knobs
  }

  // ---- the whole document ----

  /** The settings before any corridor's terms are read. */
  function Base(doc: Document, labelled: seq<Labelled>): Knobs {
    var plain := SetPlain(map[], doc, Settings);
    AllOff(SetLists(SetAssets(SetChains(plain, Sub(doc, ChainsPath)), labelled), labelled), FixedStems)
  }

  function LabelledOf(doc: Document): Result<seq<Labelled>, FlattenError> {
    ReadAssets(Sub(doc, AssetsPath), KeysAt(doc, ChainsPath))
  }

  /** A document's settings. */
  function KnobsOf(doc: Document): Result<Knobs, FlattenError> {
    match LabelledOf(doc)
    case Err(error) => Err(error)
    case Ok(labelled) =>
      match SetCorridors(Base(doc, labelled), labelled, Sub(doc, CorridorsPath))
      case Err(error) => Err(error)
      case Ok(knobs) => Ok(SetMarkets(knobs, labelled, PlainValue(doc, OfferMarkets)))
  }

  // ---- the loops ----

  method FlattenPlain(doc: Document) returns (knobs: Knobs)
    ensures knobs == SetPlain(map[], doc, Settings)
  {
    knobs := map[];
    for i := 0 to |Settings|
      invariant knobs == SetPlain(map[], doc, Settings[..i])
    {
      assert Settings[..i + 1][..i] == Settings[..i];
      knobs := Set(knobs, Settings[i], PlainValue(doc, Settings[i]));
    }
    assert Settings[..|Settings|] == Settings;
  }

  method FlattenChains(knobs0: Knobs, chains: Document) returns (knobs: Knobs)
    ensures knobs == SetChains(knobs0, chains)
  {
    knobs := knobs0;
    for i := 0 to |chains|
      invariant knobs == SetChains(knobs0, chains[..i])
    {
      assert chains[..i + 1][..i] == chains[..i];
      var fields := Entries(chains[i].node);
      ghost var before := knobs;
      for j := 0 to |EvmFields|
        invariant knobs == SetChain(before, fields, EvmFields[..j])
      {
        assert EvmFields[..j + 1][..j] == EvmFields[..j];
        knobs := Set(knobs, Evm(EvmFields[j]), ValueOf(Find(fields, Fixed(EvmFields[j]))));
      }
      assert EvmFields[..|EvmFields|] == EvmFields;
    }
    assert chains[..|chains|] == chains;
  }

  method FlattenAssets(assets: Document, chains: seq<Key>) returns (r: Result<seq<Labelled>, FlattenError>)
    ensures r == ReadAssets(assets, chains)
  {
    var labelled := [];
    for i := 0 to |assets|
      invariant ReadAssets(assets[..i], chains) == Ok(labelled)
    {
      assert assets[..i + 1][..i] == assets[..i];
      match ReadAsset(labelled, assets[i].key, Entries(assets[i].node), chains) {
        case Err(error) =>
          ReadFailsFrom(assets, chains, i + 1);
          return Err(error);
        case Ok(asset) =>
          labelled := labelled + [asset];
      }
    }
    assert assets[..|assets|] == assets;
    return Ok(labelled);
  }

  lemma {:induction false} ReadFailsFrom(assets: Document, chains: seq<Key>, i: nat)
    requires i <= |assets| && ReadAssets(assets[..i], chains).Err?
    ensures ReadAssets(assets, chains) == ReadAssets(assets[..i], chains)
  {
    if i < |assets| {
      assert assets[..|assets| - 1][..i] == assets[..i];
      ReadFailsFrom(assets[..|assets| - 1], chains, i);
    } else {
      assert assets[..i] == assets;
    }
  }

  method FlattenCorridors(knobs0: Knobs, labelled: seq<Labelled>, entries: Document) returns (r: Result<Knobs, FlattenError>)
    ensures r == SetCorridors(knobs0, labelled, entries)
  {
    var knobs := knobs0;
    for i := 0 to |entries|
      invariant SetCorridors(knobs0, labelled, entries[..i]) == Ok(knobs)
    {
      assert entries[..i + 1][..i] == entries[..i];
      match SetCorridor(knobs, labelled, entries[i].key, Entries(entries[i].node)) {
        case Err(error) =>
          SetFailsFrom(knobs0, labelled, entries, i + 1);
          return Err(error);
        case Ok(next) =>
          knobs := next;
      }
    }
    assert entries[..|entries|] == entries;
    return Ok(knobs);
  }

  lemma {:induction false} SetFailsFrom(knobs: Knobs, labelled: seq<Labelled>, entries: Document, i: nat)
    requires i <= |entries| && SetCorridors(knobs, labelled, entries[..i]).Err?
    ensures SetCorridors(knobs, labelled, entries) == SetCorridors(knobs, labelled, entries[..i])
  {
    if i < |entries| {
      assert entries[..|entries| - 1][..i] == entries[..i];
      SetFailsFrom(knobs, labelled, entries[..|entries| - 1], i);
    } else {
      assert entries[..i] == entries;
    }
  }

  method TurnOff(knobs0: Knobs) returns (knobs: Knobs)
    ensures knobs == AllOff(knobs0, FixedStems)
  {
    knobs := knobs0;
    for k := 0 to |FixedStems|
      invariant knobs == AllOff(knobs0, FixedStems[..k])
    {
      assert FixedStems[..k + 1][..k] == FixedStems[..k];
      knobs := knobs[Term(FixedStems[k], enabled) := "false"];
    }
    assert FixedStems[..|FixedStems|] == FixedStems;
  }

  method DocumentToKnobs(doc: Document) returns (r: Result<Knobs, FlattenError>)
    ensures r == KnobsOf(doc)
  {
    hide SetPlain, SetChains, ReadAssets, SetAssets, SetLists, AllOff, SetCorridors, SetMarkets, PlainValue, Sub;
    var knobs := FlattenPlain(doc);
    var chains := Sub(doc, ChainsPath);
    knobs := FlattenChains(knobs, chains);
    var read := FlattenAssets(Sub(doc, AssetsPath), Keys(chains));
    if read.Err? { return Err(read.error); }
    var labelled := read.value;
    knobs := TurnOff(SetLists(SetAssets(knobs, labelled), labelled));
    var put := FlattenCorridors(knobs, labelled, Sub(doc, CorridorsPath));
    if put.Err? { return put; }
    return Ok(SetMarkets(put.value, labelled, PlainValue(doc, OfferMarkets)));
  }
}
