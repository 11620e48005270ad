/**
 * The old environment as a document, and the document as settings again: what every
 * setting of a canonical environment is worth survives the trip.
 */
module ConfigRoundTrip {
  import opened Util
  import opened ConfigTrees
  import opened ConfigSchema
  import opened ConfigExport
  import opened ConfigViews
  import opened ConfigExported
  import opened ConfigFlatten
  import opened ConfigReads

  // ---- the assets, as they are read back ----

  function TokenEntry(env: Env, chainName: string, token: Token): AssetEntry {
    Erc20(chainName, token.address, Numeral(token.decimals, ""),
          Read(env, Id(PriceFeed(token.symbol))), Read(env, Id(PricePath(token.symbol))))
  }

  function TokenLabelled(env: Env, chainName: string, token: Token): Labelled {
    Labelled(TokenLabel(token, chainName), token.symbol, TokenEntry(env, chainName, token))
  }

  function AssetLabelled(env: Env, token: AssetToken): Labelled {
    Labelled(AssetLabel(token), token.symbol, ArkadeAsset(token.assetId, Read(env, Id(Threshold(token.symbol)))))
  }

  function TokensLabelled(env: Env, chainName: string, tokens: seq<Token>): (r: seq<Labelled>)
    ensures |r| == |tokens| && forall i :: 0 <= i < |tokens| ==> r[i] == TokenLabelled(env, chainName, tokens[i])
  {
    seq(|tokens|, i requires 0 <= i < |tokens| => TokenLabelled(env, chainName, tokens[i]))
  }

  function AssetsLabelled(env: Env, tokens: seq<AssetToken>): (r: seq<Labelled>)
    ensures |r| == |tokens| && forall i :: 0 <= i < |tokens| ==> r[i] == AssetLabelled(env, tokens[i])
  {
    seq(|tokens|, i requires 0 <= i < |tokens| => AssetLabelled(env, tokens[i]))
  }

  function AllLabelled(env: Env, tokens: seq<Token>, listed: seq<AssetToken>): (r: seq<Labelled>)
    ensures |r| == |tokens| + |listed|
  {
    TokensLabelled(env, ChainName(env), tokens) + AssetsLabelled(env, listed)
  }

  lemma FindOne(entry: Entry, key: Key)
    ensures Find([entry], key) == if entry.key == key then Some(entry.node) else None
  {
    assert [entry][1..] == [];
  }

  function TextLeaf(text: Option<string>): Option<Node> {
    if text.Some? then Some(Leaf(Text(text.value))) else None
  }

  lemma FindText(word: Word, text: Option<string>, key: Key)
    ensures Find(TextAt(word, text), key) == if key == Fixed(word) then TextLeaf(text) else None
  {
    if text.Some? { FindOne(Entry(Fixed(word), Leaf(Text(text.value))), key); }
  }

  lemma TokenNodeFind(env: Env, chainName: string, token: Token, key: Key)
    ensures Find(Entries(TokenNode(env, chainName, token)), key) ==
            if key == Fixed(kind) then Some(Leaf(Text("erc20")))
            else if key == Fixed(chain) then Some(Leaf(Text(chainName)))
            else if key == Fixed(address) then Some(Leaf(Text(token.address)))
            else if key == Fixed(decimals) then Some(Leaf(Number(Numeral(token.decimals, ""))))
            else if key == Fixed(priceFeed) then TextLeaf(Read(env, Id(PriceFeed(token.symbol))))
            else if key == Fixed(pricePath) then TextLeaf(Read(env, Id(PricePath(token.symbol))))
            else None
  {
    hide Read, Find, TextAt;
    var feed, path := Read(env, Id(PriceFeed(token.symbol))), Read(env, Id(PricePath(token.symbol)));
    var number := [Entry(Fixed(decimals), Leaf(Number(Numeral(token.decimals, ""))))];
    var a, b, c := TextAt(kind, Some("erc20")), TextAt(chain, Some(chainName)), TextAt(address, Some(token.address));
    var d, e := TextAt(priceFeed, feed), TextAt(pricePath, path);
    FindText(kind, Some("erc20"), key);
    FindText(chain, Some(chainName), key);
    FindText(address, Some(token.address), key);
    FindOne(number[0], key);
    FindText(priceFeed, feed, key);
    FindText(pricePath, path, key);
    FindInFirst(a + b + c + number + d, e, key);
    FindInFirst(a + b + c + number, d, key);
    FindInFirst(a + b + c, number, key);
    FindInFirst(a + b, c, key);
    FindInFirst(a, b, key);
  }

  lemma TokenNodeRead(env: Env, chainName: string, token: Token)
    ensures EntryOf(Entries(TokenNode(env, chainName, token))) == Some(TokenEntry(env, chainName, token))
  {
    hide Read, TextAt, Find, TokenNode, Entries;
    TokenNodeFind(env, chainName, token, Fixed(kind));
    TokenNodeFind(env, chainName, token, Fixed(chain));
    TokenNodeFind(env, chainName, token, Fixed(address));
    TokenNodeFind(env, chainName, token, Fixed(decimals));
    TokenNodeFind(env, chainName, token, Fixed(priceFeed));
    TokenNodeFind(env, chainName, token, Fixed(pricePath));
  }

  lemma AssetNodeFind(env: Env, token: AssetToken, key: Key)
    ensures Find(Entries(AssetNode(env, token)), key) ==
            if key == Fixed(kind) then Some(Leaf(Text("arkade")))
            else if key == Fixed(assetId) then Some(Leaf(Text(token.assetId)))
            else if key == Fixed(approvalThreshold) then TextLeaf(Read(env, Id(Threshold(token.symbol))))
            else None
  {
    hide Read, Find, TextAt;
    var threshold := Read(env, Id(Threshold(token.symbol)));
    var a, b, c := TextAt(kind, Some("arkade")), TextAt(assetId, Some(token.assetId)), TextAt(approvalThreshold, threshold);
    FindText(kind, Some("arkade"), key);
    FindText(assetId, Some(token.assetId), key);
    FindText(approvalThreshold, threshold, key);
    FindInFirst(a + b, c, key);
    FindInFirst(a, b, key);
  }

  lemma AssetNodeRead(env: Env, token: AssetToken)
    ensures EntryOf(Entries(AssetNode(env, token))) == Some(AssetLabelled(env, token).entry)
  {
    hide Read, TextAt, Find, AssetNode, Entries;
    AssetNodeFind(env, token, Fixed(kind));
    AssetNodeFind(env, token, Fixed(assetId));
    AssetNodeFind(env, token, Fixed(approvalThreshold));
  }

  lemma SymbolIsUpper(symbol: string)
    requires IsSymbol(symbol)
    ensures Upper(symbol) == symbol
  {
    forall i | 0 <= i < |symbol| ensures UpperChar(symbol[i]) == symbol[i] { assert symbol[i] in symbol; }
  }

  /** Every listed token and asset has a proper symbol, an address or an id of its own. */
  lemma ListsProper(env: Env)
    requires TokensOf(env).Ok? && AssetsOf(env).Ok?
    ensures forall t :: t in TokensOf(env).value ==> IsSymbol(t.symbol)
    ensures forall t :: t in AssetsOf(env).value ==> IsSymbol(t.symbol) && |t.assetId| == 68
  {
    hide Read, IsSymbol, IsAddress, IsHex, Split, Trim, ParseNumber;
    if Read(env, Id(EvmTokens)).Some? {
      var entries := Split(Read(env, Id(EvmTokens)).value, ',');
      TokensParsed(entries);
      forall t | t in ParseTokens(entries).value ensures IsSymbol(t.symbol) {
        var i :| 0 <= i < |entries| && ParseTokens(entries).value[i] == t;
        assert ParseToken(entries[i]) == Ok(t);
      }
    }
    if Read(env, Id(AssetMarkets)).Some? {
      var entries := Split(Read(env, Id(AssetMarkets)).value, ',');
      AssetsParsed(entries);
      forall t | t in ParseAssets(entries).value ensures IsSymbol(t.symbol) && |t.assetId| == 68 {
        var i :| 0 <= i < |entries| && ParseAssets(entries).value[i] == t;
        assert ParseAsset(entries[i]) == Ok(t);
      }
    }
  }

  lemma AllApart(env: Env, tokens: seq<Token>, listed: seq<AssetToken>)
    requires TokensApart(tokens) && AssetsApart(listed)
    ensures LabelledApart(AllLabelled(env, tokens, listed))
  {
    hide Read, ChainName;
  }

  // ---- the exported document, read back ----

  lemma LabelsDistinct(chainName: string, tokens: seq<Token>, listed: seq<AssetToken>)
    requires TokensApart(tokens) && AssetsApart(listed)
    ensures Distinct(TokenLabels(tokens, chainName) + AssetLabels(listed))
  {
  }

  lemma AssetView(doc: Document, chainName: string, key: Key)
    ensures View(doc, chainName, AssetAt(key)) == Find(Sub(doc, AssetsPath), key)
  {
    assert SlotPath(AssetAt(key), chainName)[..1] == AssetsPath;
  }

  lemma {:induction false} TokenForEach(tokens: seq<Token>, i: nat)
    requires TokensApart(tokens) && i < |tokens|
    ensures TokenFor(tokens, tokens[i].symbol) == Some(tokens[i])
  {
    if i < |tokens| - 1 { TokenForEach(tokens[..|tokens| - 1], i); }
  }

  lemma {:induction false} AssetForEach(tokens: seq<AssetToken>, i: nat)
    requires AssetsApart(tokens) && i < |tokens|
    ensures AssetFor(tokens, tokens[i].symbol) == Some(tokens[i])
  {
    if i < |tokens| - 1 { AssetForEach(tokens[..|tokens| - 1], i); }
  }

  /** What the document has under an asset's label is read back as the asset. */
  ghost predicate ReadsBack(env: Env, rows: seq<MarketPair>, tokens: seq<Token>, listed: seq<AssetToken>, asset: Labelled) {
    var shown := if asset.key.Label? then Exported(env, rows, tokens, listed, AssetAt(asset.key)) else None;
    && asset.key.Label? && IsSymbol(asset.symbol) && asset.symbol == Upper(asset.key.symbol)
    && shown.Some? && EntryOf(Entries(shown.value)) == Some(asset.entry)
    && (asset.entry.Erc20? ==> tokens != [] && asset.entry.on == ChainName(env))
  }

  lemma TokenReadsBack(env: Env, rows: seq<MarketPair>, tokens: seq<Token>, listed: seq<AssetToken>, i: nat)
    requires i < |tokens| && TokensApart(tokens) && IsSymbol(tokens[i].symbol)
    ensures ReadsBack(env, rows, tokens, listed, TokenLabelled(env, ChainName(env), tokens[i]))
  {
    hide ChainName, Read, TokenNode, EntryOf, IsSymbol, Upper, Entries;
    SymbolIsUpper(tokens[i].symbol);
    TokenNodeRead(env, ChainName(env), tokens[i]);
    TokenForEach(tokens, i);
  }

  lemma AssetReadsBack(env: Env, rows: seq<MarketPair>, tokens: seq<Token>, listed: seq<AssetToken>, i: nat)
    requires i < |listed| && AssetsApart(listed) && IsSymbol(listed[i].symbol)
    ensures ReadsBack(env, rows, tokens, listed, AssetLabelled(env, listed[i]))
  {
    hide ChainName, Read, AssetNode, EntryOf, IsSymbol, Upper, Entries;
    SymbolIsUpper(listed[i].symbol);
    AssetNodeRead(env, listed[i]);
    AssetForEach(listed, i);
  }

  lemma LabelRead(env: Env, rows: seq<MarketPair>, i: nat)
    requires TokensOf(env).Ok? && AssetsOf(env).Ok?
    requires i < |TokensOf(env).value| + |AssetsOf(env).value|
    ensures var tokens, listed := TokensOf(env).value, AssetsOf(env).value;
            var asset := AllLabelled(env, tokens, listed)[i];
            ReadsBack(env, rows, tokens, listed, asset) && asset.key == (TokenLabels(tokens, ChainName(env)) + AssetLabels(listed))[i]
  {
    hide ReadsBack, TokensOf, AssetsOf, IsSymbol, ChainName, Read;
    var tokens, listed := TokensOf(env).value, AssetsOf(env).value;
    ListsProper(env);
    ListsApart(env);
    if i < |tokens| {
      assert tokens[i] in tokens;
      TokenReadsBack(env, rows, tokens, listed, i);
    } else {
      assert listed[i - |tokens|] in listed;
      AssetReadsBack(env, rows, tokens, listed, i - |tokens|);
    }
  }

  lemma AssetRead(env: Env, rows: seq<MarketPair>, i: nat)
    requires DocumentOf(env, rows).Ok?
    requires i < |TokensOf(env).value| + |AssetsOf(env).value|
    ensures var doc, labelled := DocumentOf(env, rows).value, AllLabelled(env, TokensOf(env).value, AssetsOf(env).value);
            && |Sub(doc, AssetsPath)| == |labelled|
            && ReadsAs(Sub(doc, AssetsPath)[i], labelled[i], KeysAt(doc, ChainsPath))
  {
    hide DocumentOf, TokensOf, AssetsOf, Exported, Entries, EntryOf, IsSymbol, Upper, AllLabelled, View, Sub, HasChains, ChainName;
    var doc, chainName := DocumentOf(env, rows).value, ChainName(env);
    ListsOk(env, rows);
    var tokens, listed := TokensOf(env).value, AssetsOf(env).value;
    DocumentTidy(env, rows);
    ListsApart(env);
    LabelsDistinct(chainName, tokens, listed);
    var entries := Sub(doc, AssetsPath);
    var key := entries[i].key;
    assert Keys(entries)[i] == key;
    LabelRead(env, rows, i);
    FindNth(entries, i);
    AssetView(doc, chainName, key);
    KnownLabel(key);
    DocumentView(env, rows, AssetAt(key));
  }

  lemma DocumentLabelled(env: Env, rows: seq<MarketPair>)
    requires DocumentOf(env, rows).Ok?
    ensures var labelled := AllLabelled(env, TokensOf(env).value, AssetsOf(env).value);
            && LabelledApart(labelled)
            && if exists a :: a in labelled && IsBitcoin(a) then LabelledOf(DocumentOf(env, rows).value).Err?
               else LabelledOf(DocumentOf(env, rows).value) == Ok(labelled)
  {
    hide DocumentOf, TokensOf, AssetsOf, AllLabelled, Sub, ChainName, ReadsAs, IsBitcoin, ReadAssets;
    ListsOk(env, rows);
    var doc, labelled := DocumentOf(env, rows).value, AllLabelled(env, TokensOf(env).value, AssetsOf(env).value);
    ListsApart(env);
    AllApart(env, TokensOf(env).value, AssetsOf(env).value);
    forall i | 0 <= i < |labelled|
      ensures |Sub(doc, AssetsPath)| == |labelled| && ReadsAs(Sub(doc, AssetsPath)[i], labelled[i], KeysAt(doc, ChainsPath))
    {
      AssetRead(env, rows, i);
    }
    DocumentTidy(env, rows);
    assert |KeysAt(doc, AssetsPath)| == |labelled|;
    ReadAssetsAt(Sub(doc, AssetsPath), labelled, KeysAt(doc, ChainsPath));
  }

  // ---- the corridors ----

  /** Every asset's label is its symbol, with the chain's name after an ERC-20 one's. */
  ghost predicate Regular(labelled: seq<Labelled>, chainName: string) {
    forall a :: a in labelled ==> a.key == Label(a.symbol, if a.entry.Erc20? then Some(chainName) else None)
  }

  ghost predicate Named(labelled: seq<Labelled>, stem: Stem) {
    match stem
    case EvmSend(symbol) => exists a :: a in labelled && a.entry.Erc20? && a.symbol == symbol
    case EvmReceive(symbol) => exists a :: a in labelled && a.entry.Erc20? && a.symbol == symbol
    case FromBtc(symbol) => exists a :: a in labelled && !a.entry.Erc20? && a.symbol == symbol
    case ToBtc(symbol) => exists a :: a in labelled && !a.entry.Erc20? && a.symbol == symbol
    case _ => true
  }

  lemma {:induction false} StemForNamed(labelled: seq<Labelled>, chainName: string, stem: Stem)
    requires Regular(labelled, chainName) && Named(labelled, stem)
    ensures StemFor(labelled, PairOf(stem, chainName)) == Some(stem)
  {
    if labelled != [] {
      var n := |labelled| - 1;
      var pair := PairOf(stem, chainName);
      assert labelled == labelled[..n] + [labelled[n]] && labelled[n] in labelled;
      var last := labelled[n];
      if pair != Pair(ArkadeBtc, SideOf(last.key)) && pair != Pair(SideOf(last.key), ArkadeBtc) {
        StemForNamed(labelled[..n], chainName, stem);
      }
    }
  }

  lemma ServedIsNamed(env: Env, tokens: seq<Token>, listed: seq<AssetToken>, stem: Stem)
    ensures Regular(AllLabelled(env, tokens, listed), ChainName(env))
    ensures Serves(tokens, listed, stem) ==> Named(AllLabelled(env, tokens, listed), stem)
  {
    hide Read, ChainName;
    var labelled := AllLabelled(env, tokens, listed);
    forall i | 0 <= i < |tokens| ensures labelled[i] == TokenLabelled(env, ChainName(env), tokens[i]) && labelled[i] in labelled {
    }
    forall i | 0 <= i < |listed| ensures labelled[|tokens| + i] == AssetLabelled(env, listed[i]) && labelled[|tokens| + i] in labelled {
    }
  }

  lemma CorridorReadable(env: Env, rows: seq<MarketPair>, i: nat)
    requires DocumentOf(env, rows).Ok? && i < |Sub(DocumentOf(env, rows).value, CorridorsPath)|
    ensures var doc, labelled := DocumentOf(env, rows).value, AllLabelled(env, TokensOf(env).value, AssetsOf(env).value);
            ReadableEntry(labelled, Sub(doc, CorridorsPath)[i], ChainName(env))
  {
    hide DocumentOf, TokensOf, AssetsOf, AllLabelled, ChainName, PairOf, StemFor, Sub, Find, TidyTerms, HasChains, StemsOf, Serves, Named, Regular, Child;
    ListsOk(env, rows);
    var doc, chainName := DocumentOf(env, rows).value, ChainName(env);
    var tokens, listed := TokensOf(env).value, AssetsOf(env).value;
    DocumentTidy(env, rows);
    var entries := Sub(doc, CorridorsPath);
    var pair := Keys(entries)[i];
    assert pair in KeysAt(doc, CorridorsPath);
    var stem :| stem in StemsOf(tokens, listed) && pair == PairOf(stem, chainName);
    StemsServed(tokens, listed, stem);
    ServedIsNamed(env, tokens, listed, stem);
    StemForNamed(AllLabelled(env, tokens, listed), chainName, stem);
    FindNth(entries, i);
    TermsBlock(doc, stem, chainName, entries[i].node);
    assert TidyTerms(KeysAt(doc, TermsAt(stem, chainName)), stem);
  }

  lemma TermsBlock(doc: Document, stem: Stem, chainName: string, node: Node)
    requires Find(Sub(doc, CorridorsPath), PairOf(stem, chainName)) == Some(node)
    ensures Sub(doc, TermsAt(stem, chainName)) == Entries(node)
  {
    hide Sub, Find, PairOf;
    SubEnd(doc, CorridorsPath, PairOf(stem, chainName));
    assert TermsAt(stem, chainName) == CorridorsPath + [PairOf(stem, chainName)];
  }

  lemma CorridorsReadable(env: Env, rows: seq<MarketPair>)
    requires DocumentOf(env, rows).Ok?
    ensures var doc, labelled := DocumentOf(env, rows).value, AllLabelled(env, TokensOf(env).value, AssetsOf(env).value);
            Readable(labelled, Sub(doc, CorridorsPath), ChainName(env))
  {
    hide DocumentOf, TokensOf, AssetsOf, AllLabelled, ChainName, ReadableEntry, Sub;
    ListsOk(env, rows);
    DocumentTidy(env, rows);
    var entries := Sub(DocumentOf(env, rows).value, CorridorsPath);
    forall i | 0 <= i < |entries|
      ensures ReadableEntry(AllLabelled(env, TokensOf(env).value, AssetsOf(env).value), entries[i], ChainName(env))
    {
      CorridorReadable(env, rows, i);
    }
  }

  // ---- what each setting comes to ----

  lemma SetListsAt(knobs: Knobs, labelled: seq<Labelled>, knob: Knob)
    ensures Get(SetLists(knobs, labelled), knob) ==
            if knob == EvmTokens && ListText(TokenTexts(labelled)).Some? then ListText(TokenTexts(labelled))
            else if knob == AssetMarkets && ListText(AssetTexts(labelled)).Some? then ListText(AssetTexts(labelled))
            else Get(knobs, knob)
  {
  }

  /** The chain's settings: those of the one chain there is, or none. */
  lemma SetChainsAt(knobs: Knobs, doc: Document, chainName: string, knob: Knob)
    requires KeysAt(doc, ChainsPath) == [] || KeysAt(doc, ChainsPath) == [ChainNamed(chainName)]
    ensures Get(SetChains(knobs, Sub(doc, ChainsPath)), knob) ==
            if knob.Evm? && knob.field in EvmFields && ValueOf(View(doc, chainName, Setting(knob))).Some?
            then Written(knob, ValueOf(View(doc, chainName, Setting(knob)))) else Get(knobs, knob)
  {
    hide Sub, EvmFields, KindOf, Encode, Find;
    var chains := Sub(doc, ChainsPath);
    var key := ChainNamed(chainName);
    if knob.Evm? {
      var path := SlotPath(Setting(knob), chainName);
      assert path[..3] == ChainsPath + [key] && path[3] == Fixed(knob.field);
      SubEnd(doc, ChainsPath, key);
    }
    NothingIn(Fixed(if knob.Evm? then knob.field else enabled));
    FindKeys(chains, key);
    if chains != [] {
      assert Keys(chains)[0] == key && chains == [chains[0]] && chains[..0] == [];
      FindNth(chains, 0);
      SetChainAt(knobs, Entries(chains[0].node), EvmFields, knob);
    }
  }

  lemma NothingIn(key: Key)
    ensures Find([], key) == None
  {
  }

  lemma BaseAt(doc: Document, labelled: seq<Labelled>, chainName: string, knob: Knob)
    requires KeysAt(doc, ChainsPath) == [] || KeysAt(doc, ChainsPath) == [ChainNamed(chainName)]
    ensures Get(Base(doc, labelled), knob) ==
            match knob
            case Term(stem, field) => if field == enabled && stem in FixedStems then Some("false") else None
            case Evm(field) =>
              if field in EvmFields then Written(knob, ValueOf(View(doc, chainName, Setting(knob)))) else None
            case Plain(_, _) => if knob in Settings then Written(knob, PlainValue(doc, knob)) else None
            case EvmTokens => ListText(TokenTexts(labelled))
            case AssetMarkets => ListText(AssetTexts(labelled))
            case _ => AssetSetting(labelled, knob)
  {
    hide Sub, EvmFields, KindOf, Encode, Find, Settings, FixedStems, SetPlain, SetChains, SetAssets, SetLists, AllOff,
      View, ListText, TokenTexts, AssetTexts, PlainValue;
    var plain := SetPlain(map[], doc, Settings);
    SetPlainAt(map[], doc, Settings, knob);
    SettingsPlain(knob);
    SetChainsAt(plain, doc, chainName, knob);
    var chained := SetChains(plain, Sub(doc, ChainsPath));
    SetAssetsAt(chained, labelled, knob);
    OwnOnly(labelled, knob);
    SetListsAt(SetAssets(chained, labelled), labelled, knob);
    AllOffAt(SetLists(SetAssets(chained, labelled), labelled), FixedStems, knob);
  }

  lemma SettingsPlain(knob: Knob)
    ensures knob in Settings ==> knob.Plain?
  {
    FixedKnown();
  }

  lemma {:induction false} OwnOnly(labelled: seq<Labelled>, knob: Knob)
    ensures !knob.PriceFeed? && !knob.PricePath? && !knob.Threshold? ==> AssetSetting(labelled, knob) == None
  {
    if labelled != [] { OwnOnly(labelled[..|labelled| - 1], knob); }
  }

  /** An exported document reads back, and what it leaves a setting other than the offer markets at. */
  lemma KnobAt(env: Env, rows: seq<MarketPair>, knob: Knob)
    requires DocumentOf(env, rows).Ok? && LabelledOf(DocumentOf(env, rows).value).Ok? && knob != OfferMarkets
    ensures var doc, labelled := DocumentOf(env, rows).value, AllLabelled(env, TokensOf(env).value, AssetsOf(env).value);
            && LabelledOf(doc) == Ok(labelled)
            && KnobsOf(doc).Ok?
            && Get(KnobsOf(doc).value, knob) ==
               if knob.Term? && PairOf(knob.stem, ChainName(env)) in KeysAt(doc, CorridorsPath)
               then TermSetting(Sub(doc, TermsAt(knob.stem, ChainName(env))), knob, Get(Base(doc, labelled), knob))
               else Get(Base(doc, labelled), knob)
  {
    hide DocumentOf, TokensOf, AssetsOf, AllLabelled, ChainName, PairOf, Sub, Readable, Base, TermSetting, SetCorridors, MarketsRead, LabelledOf,
      IsBitcoin;
    ListsOk(env, rows);
    var doc, chainName := DocumentOf(env, rows).value, ChainName(env);
    var labelled := AllLabelled(env, TokensOf(env).value, AssetsOf(env).value);
    DocumentLabelled(env, rows);
    CorridorsReadable(env, rows);
    SetCorridorsAt(Base(doc, labelled), labelled, Sub(doc, CorridorsPath), chainName, knob);
    if knob.Term? {
      SubEnd(doc, CorridorsPath, PairOf(knob.stem, chainName));
      assert TermsAt(knob.stem, chainName) == CorridorsPath + [PairOf(knob.stem, chainName)];
    }
  }

  // ---- the round trip ----

  /** The environment has a document, and lists no Arkade asset under bitcoin's own symbol. */
  ghost predicate Convertible(env: Env, rows: seq<MarketPair>) {
    DocumentOf(env, rows).Ok? && forall t :: t in AssetsOf(env).value ==> t.symbol != "BTC"
  }

  lemma ReadsOk(env: Env, rows: seq<MarketPair>)
    requires Convertible(env, rows)
    ensures DocumentOf(env, rows).Ok? && LabelledOf(DocumentOf(env, rows).value).Ok?
  {
    hide DocumentOf, AllLabelled, TokensOf, AssetsOf, LabelledOf;
    ListsOk(env, rows);
    DocumentLabelled(env, rows);
    WhoIsBitcoin(env, TokensOf(env).value, AssetsOf(env).value);
  }

  /** A list entry with no blanks around it. */
  predicate TidyEntry(entry: string) {
    Trim(entry) == entry
  }

  predicate TidyToken(entry: string) {
    var parts := Split(entry, ':');
    TidyEntry(entry) && |parts| == 3 && PlainNumeral(parts[2])
  }

  /** Every setting is spelled the way its value is written back. */
  ghost predicate CanonicalEnv(env: Env) {
    && (forall knob :: Known(Setting(knob)) && Raw(env, knob).Some? ==> Canonical(KindOf(Setting(knob)), Raw(env, knob).value))
    && (Read(env, Id(EvmTokens)).Some? ==>
          forall entry :: entry in Split(Read(env, Id(EvmTokens)).value, ',') ==> TidyToken(entry))
    && (Read(env, Id(AssetMarkets)).Some? ==>
          forall entry :: entry in Split(Read(env, Id(AssetMarkets)).value, ',') ==> TidyEntry(entry))
  }

  lemma ShownWritten(knob: Knob, raw: Option<string>)
    requires raw.Some? ==> Canonical(KindOf(Setting(knob)), raw.value)
    ensures Written(knob, ValueOf(Shown(knob, raw))) == raw
  {
    hide KindOf, Canonical, Encode, Decode;
    if raw.Some? { EncodeDecode(KindOf(Setting(knob)), raw.value); }
  }

  lemma PlainView(doc: Document, chainName: string, knob: Knob)
    requires knob in Settings || knob == OfferMarkets
    ensures PlainValue(doc, knob) == ValueOf(View(doc, chainName, Setting(knob)))
  {
    hide At, SectionPath, Settings;
    SettingsAreLeaves(knob);
  }

  /** A setting at a fixed path comes back as the environment has it, under its id or the name it had, and unset when unset. */
  lemma PlainKept(env: Env, rows: seq<MarketPair>, knob: Knob)
    requires Convertible(env, rows) && CanonicalEnv(env) && knob in Settings
    ensures KnobsOf(DocumentOf(env, rows).value).Ok?
    ensures Get(KnobsOf(DocumentOf(env, rows).value).value, knob) == Raw(env, knob)
  {
    hide DocumentOf, KnobsOf, ChainName, Base, Raw, KindOf, Canonical, Settings, View, LabelledOf, PairOf, TermSetting, Decode, Encode, AllLabelled,
      TokensOf, AssetsOf, Shown, Split, PlainValue, HasChains, StemsOf;
    ReadsOk(env, rows);
    ListsOk(env, rows);
    var doc, chainName := DocumentOf(env, rows).value, ChainName(env);
    FixedKnown();
    MarketsApart();
    SettingsPlain(knob);
    KnobAt(env, rows, knob);
    DocumentTidy(env, rows);
    BaseAt(doc, AllLabelled(env, TokensOf(env).value, AssetsOf(env).value), chainName, knob);
    PlainView(doc, chainName, knob);
    DocumentView(env, rows, Setting(knob));
    ShownWritten(knob, Raw(env, knob));
  }

  /** So does a setting of the chain, under whatever name the document gives the chain. */
  lemma ChainKept(env: Env, rows: seq<MarketPair>, field: Word)
    requires Convertible(env, rows) && CanonicalEnv(env) && field in EvmFields
    ensures KnobsOf(DocumentOf(env, rows).value).Ok?
    ensures Get(KnobsOf(DocumentOf(env, rows).value).value, Evm(field)) == Raw(env, Evm(field))
  {
    hide DocumentOf, KnobsOf, ChainName, Base, Raw, KindOf, Canonical, Settings, View, LabelledOf, PairOf, TermSetting, Decode, Encode, AllLabelled,
      TokensOf, AssetsOf, Shown, Split, EvmFields, HasChains, StemsOf;
    ReadsOk(env, rows);
    ListsOk(env, rows);
    var doc, chainName, knob := DocumentOf(env, rows).value, ChainName(env), Evm(field);
    KnobAt(env, rows, knob);
    DocumentTidy(env, rows);
    BaseAt(doc, AllLabelled(env, TokensOf(env).value, AssetsOf(env).value), chainName, knob);
    DocumentView(env, rows, Setting(knob));
    ShownWritten(knob, Raw(env, knob));
  }

  /** What `enabled` is worth: unset is on, and anything but true and false is refused. */
  function EnabledOf(raw: Option<string>): Option<bool> {
    match raw
    case None => Some(true)
    case Some(text) => if text == "true" then Some(true) else if text == "false" then Some(false) else None
  }

  /** A corridor the document does not name shows no term. */
  lemma NotNamed(doc: Document, chainName: string, stem: Stem, field: Word)
    ensures View(doc, chainName, Setting(Term(stem, field))) == Find(Sub(doc, TermsAt(stem, chainName)), Fixed(field))
    ensures PairOf(stem, chainName) !in KeysAt(doc, CorridorsPath) ==> View(doc, chainName, Setting(Term(stem, field))) == None
  {
    hide Sub, PairOf, Find;
    var path, pair := SlotPath(Setting(Term(stem, field)), chainName), PairOf(stem, chainName);
    assert path[..2] == TermsAt(stem, chainName) && TermsAt(stem, chainName) == CorridorsPath + [pair];
    SubEnd(doc, CorridorsPath, pair);
    FindKeys(Sub(doc, CorridorsPath), pair);
    NothingIn(Fixed(field));
  }

  lemma TermKnown(stem: Stem, field: Word)
    requires field in FieldsOf(FamilyOf(stem))
    ensures Known(Setting(Term(stem, field)))
    ensures stem.ToBtc? || stem.FromBtc? ==> field == enabled
  {
    hide TermFields;
    TermsKnown(stem, {stem});
    assert Term(stem, field) in TermsOf(stem);
  }

  lemma FlagsCanonical(stem: Stem, raw: string)
    ensures Canonical(KindOf(Setting(Term(stem, enabled))), raw)
  {
  }

  lemma TermCanonical(env: Env, rows: seq<MarketPair>, listed: seq<AssetToken>, stem: Stem, field: Word)
    requires CanonicalEnv(env) && field in FieldsOf(FamilyOf(stem))
    ensures Known(Setting(Term(stem, field)))
    ensures var raw := TermRaw(env, rows, listed, stem, field);
            raw.Some? ==> Canonical(KindOf(Setting(Term(stem, field))), raw.value)
  {
    hide DirectionRaw, Raw, Split, Known, FieldsOf, FamilyOf, KindOf, Canonical, TidyEntry, TidyToken;
    TermKnown(stem, field);
    var raw := TermRaw(env, rows, listed, stem, field);
    if raw.Some? { FlagsCanonical(stem, raw.value); }
  }

  /**
   * A served corridor's terms come back as the environment has them, an asset's directions by
   * whichever name they had; a corridor that says nothing of being enabled stays enabled.
   */
  lemma TermKept(env: Env, rows: seq<MarketPair>, stem: Stem, field: Word)
    requires Convertible(env, rows) && CanonicalEnv(env)
    requires Serves(TokensOf(env).value, AssetsOf(env).value, stem) && field in FieldsOf(FamilyOf(stem))
    ensures KnobsOf(DocumentOf(env, rows).value).Ok?
    ensures var kept := Get(KnobsOf(DocumentOf(env, rows).value).value, Term(stem, field));
            var raw := TermRaw(env, rows, AssetsOf(env).value, stem, field);
            && (raw.Some? || field != enabled ==> kept == raw)
            && (field == enabled ==> EnabledOf(kept) == EnabledOf(raw))
  {
    hide DocumentOf, KnobsOf, ChainName, Base, Raw, KindOf, Canonical, Settings, View, LabelledOf, PairOf, Decode, Encode, AllLabelled,
      TokensOf, AssetsOf, Split, HasChains, StemsOf, CanonicalEnv, TermRaw, Serves, Known, FieldsOf, FamilyOf, Find, KeysAt, Sub;
    ReadsOk(env, rows);
    ListsOk(env, rows);
    var doc, chainName, knob := DocumentOf(env, rows).value, ChainName(env), Term(stem, field);
    var listed := AssetsOf(env).value;
    KnobAt(env, rows, knob);
    DocumentTidy(env, rows);
    BaseAt(doc, AllLabelled(env, TokensOf(env).value, listed), chainName, knob);
    TermCanonical(env, rows, listed, stem, field);
    DocumentView(env, rows, Setting(knob));
    ShownWritten(knob, TermRaw(env, rows, listed, stem, field));
    NotNamed(doc, chainName, stem, field);
  }

  lemma {:induction false} OwnAt(labelled: seq<Labelled>, knob: Knob, value: Option<string>)
    requires forall a :: a in labelled && OwnSetting(a, knob).Some? ==> OwnSetting(a, knob) == value
    requires value.Some? ==> exists a :: a in labelled && OwnSetting(a, knob) == value
    ensures AssetSetting(labelled, knob) == value
  {
    hide OwnSetting;
    if labelled != [] {
      var n := |labelled| - 1;
      assert labelled == labelled[..n] + [labelled[n]];
      if OwnSetting(labelled[n], knob).None? { OwnAt(labelled[..n], knob, value); }
    }
  }

  lemma TokenOwn(env: Env, tokens: seq<Token>, listed: seq<AssetToken>, t: Token)
    requires t in tokens
    ensures var labelled := AllLabelled(env, tokens, listed);
            && AssetSetting(labelled, PriceFeed(t.symbol)) == Read(env, Id(PriceFeed(t.symbol)))
            && AssetSetting(labelled, PricePath(t.symbol)) == Read(env, Id(PricePath(t.symbol)))
  {
    hide Read, ChainName;
    var labelled := AllLabelled(env, tokens, listed);
    var i :| 0 <= i < |tokens| && tokens[i] == t;
    assert labelled[i] == TokenLabelled(env, ChainName(env), t) && labelled[i] in labelled;
    OwnAt(labelled, PriceFeed(t.symbol), Read(env, Id(PriceFeed(t.symbol))));
    OwnAt(labelled, PricePath(t.symbol), Read(env, Id(PricePath(t.symbol))));
  }

  lemma AssetOwn(env: Env, tokens: seq<Token>, listed: seq<AssetToken>, t: AssetToken)
    requires t in listed
    ensures AssetSetting(AllLabelled(env, tokens, listed), Threshold(t.symbol)) == Read(env, Id(Threshold(t.symbol)))
  {
    hide Read, ChainName;
    var labelled := AllLabelled(env, tokens, listed);
    var i :| 0 <= i < |listed| && listed[i] == t;
    assert labelled[|tokens| + i] == AssetLabelled(env, t) && labelled[|tokens| + i] in labelled;
    OwnAt(labelled, Threshold(t.symbol), Read(env, Id(Threshold(t.symbol))));
  }

  /** The settings of each listed token and asset come back as the environment has them. */
  lemma AssetSettingsKept(env: Env, rows: seq<MarketPair>)
    requires Convertible(env, rows)
    ensures KnobsOf(DocumentOf(env, rows).value).Ok?
    ensures var kept := KnobsOf(DocumentOf(env, rows).value).value;
            && (forall t :: t in TokensOf(env).value ==>
                  && Get(kept, PriceFeed(t.symbol)) == Read(env, Id(PriceFeed(t.symbol)))
                  && Get(kept, PricePath(t.symbol)) == Read(env, Id(PricePath(t.symbol))))
            && (forall t :: t in AssetsOf(env).value ==> Get(kept, Threshold(t.symbol)) == Read(env, Id(Threshold(t.symbol))))
  {
    hide DocumentOf, KnobsOf, ChainName, Base, KindOf, Settings, View, LabelledOf, PairOf, AllLabelled, TermSetting,
      TokensOf, AssetsOf, HasChains, StemsOf, KeysAt, Sub, AssetSetting, Read, Encode;
    ReadsOk(env, rows);
    ListsOk(env, rows);
    var doc, chainName := DocumentOf(env, rows).value, ChainName(env);
    var tokens, listed := TokensOf(env).value, AssetsOf(env).value;
    var labelled := AllLabelled(env, tokens, listed);
    DocumentTidy(env, rows);
    KnobAt(env, rows, EvmTokens);
    var kept := KnobsOf(doc).value;
    forall t | t in tokens
      ensures Get(kept, PriceFeed(t.symbol)) == Read(env, Id(PriceFeed(t.symbol)))
           && Get(kept, PricePath(t.symbol)) == Read(env, Id(PricePath(t.symbol)))
    {
      TokenOwn(env, tokens, listed, t);
      KnobAt(env, rows, PriceFeed(t.symbol));
      KnobAt(env, rows, PricePath(t.symbol));
      BaseAt(doc, labelled, chainName, PriceFeed(t.symbol));
      BaseAt(doc, labelled, chainName, PricePath(t.symbol));
    }
    forall t | t in listed ensures Get(kept, Threshold(t.symbol)) == Read(env, Id(Threshold(t.symbol))) {
      AssetOwn(env, tokens, listed, t);
      KnobAt(env, rows, Threshold(t.symbol));
      BaseAt(doc, labelled, chainName, Threshold(t.symbol));
    }
  }

  // ---- the lists ----

  lemma TokenTextKept(entry: string)
    requires TidyToken(entry) && ParseToken(entry).Ok?
    ensures var t := ParseToken(entry).value; TokenText(t.symbol, t.address, Numeral(t.decimals, "")) == entry
  {
    hide ParseNumber, PrintNumeral, Split, IsSymbol, IsAddress, Trim, PlainNumeral;
    var parts := Split(entry, ':');
    NumeralPrinted(parts[2]);
    JoinSplit(entry, ':');
    assert parts[..2] == [parts[0], parts[1]] && parts[..2][..1] == [parts[0]];
    assert Join(parts[..2], ':') == parts[0] + ":" + parts[1];
  }

  lemma AssetTextKept(entry: string)
    requires TidyEntry(entry) && ParseAsset(entry).Ok?
    ensures var t := ParseAsset(entry).value; t.symbol + ":" + t.assetId == entry
  {
    hide Split, IsSymbol, IsAssetId, Trim;
    var parts := Split(entry, ':');
    JoinSplit(entry, ':');
    assert parts[..1] == [parts[0]];
  }

  lemma {:induction false} TextsOfTokens(env: Env, chainName: string, tokens: seq<Token>, entries: seq<string>)
    requires |tokens| == |entries|
    requires forall i :: 0 <= i < |entries| ==> TokenText(tokens[i].symbol, tokens[i].address, Numeral(tokens[i].decimals, "")) == entries[i]
    ensures TokenTexts(TokensLabelled(env, chainName, tokens)) == entries && AssetTexts(TokensLabelled(env, chainName, tokens)) == []
  {
    hide Read, TokenText;
    var labelled := TokensLabelled(env, chainName, tokens);
    if tokens != [] {
      var n := |tokens| - 1;
      assert labelled[..n] == TokensLabelled(env, chainName, tokens[..n]);
      TextsOfTokens(env, chainName, tokens[..n], entries[..n]);
    }
  }

  lemma TextsEnd(labelled: seq<Labelled>, last: Labelled)
    requires last.entry.ArkadeAsset?
    ensures TokenTexts(labelled + [last]) == TokenTexts(labelled)
    ensures AssetTexts(labelled + [last]) == AssetTexts(labelled) + [last.symbol + ":" + last.entry.assetId]
  {
    assert (labelled + [last])[..|labelled|] == labelled;
  }

  lemma {:induction false} TextsOfAll(env: Env, tokens: seq<Labelled>, assets: seq<AssetToken>, entries: seq<string>)
    requires |assets| == |entries| && forall i :: 0 <= i < |entries| ==> assets[i].symbol + ":" + assets[i].assetId == entries[i]
    ensures TokenTexts(tokens + AssetsLabelled(env, assets)) == TokenTexts(tokens)
    ensures AssetTexts(tokens + AssetsLabelled(env, assets)) == AssetTexts(tokens) + entries
  {
    hide Read, TokenTexts, AssetTexts;
    var labelled := tokens + AssetsLabelled(env, assets);
    if assets == [] {
      assert labelled == tokens;
    } else {
      var n := |assets| - 1;
      var last := AssetLabelled(env, assets[n]);
      assert labelled == tokens + AssetsLabelled(env, assets[..n]) + [last];
      TextsOfAll(env, tokens, assets[..n], entries[..n]);
      TextsEnd(tokens + AssetsLabelled(env, assets[..n]), last);
      assert entries == entries[..n] + [entries[n]];
    }
  }

  /** The entries of a list setting; none when it is unset. */
  function EntriesOf(env: Env, knob: Knob): seq<string> {
    match Read(env, Id(knob))
    case None => []
    case Some(raw) => Split(raw, ',')
  }

  lemma ListTextOf(env: Env, knob: Knob)
    ensures ListText(EntriesOf(env, knob)) == Read(env, Id(knob))
  {
    hide Read;
    match Read(env, Id(knob))
    case None =>
    case Some(raw) => JoinSplit(raw, ',');
  }

  lemma TokensTextKept(env: Env)
    requires TokensOf(env).Ok? && CanonicalEnv(env)
    ensures var tokens, entries := TokensOf(env).value, EntriesOf(env, EvmTokens);
            |tokens| == |entries| && forall i :: 0 <= i < |entries| ==>
              TokenText(tokens[i].symbol, tokens[i].address, Numeral(tokens[i].decimals, "")) == entries[i]
  {
    hide Read, ParseToken, TokenText, Raw, Canonical, KindOf, Known, TidyToken, TidyEntry, Split;
    var tokens, entries := TokensOf(env).value, EntriesOf(env, EvmTokens);
    if Read(env, Id(EvmTokens)).Some? { TokensParsed(entries); }
    forall i | 0 <= i < |entries| ensures TokenText(tokens[i].symbol, tokens[i].address, Numeral(tokens[i].decimals, "")) == entries[i] {
      assert entries[i] in entries;
      TokenTextKept(entries[i]);
    }
  }

  lemma AssetsTextKept(env: Env)
    requires AssetsOf(env).Ok? && CanonicalEnv(env)
    ensures var listed, entries := AssetsOf(env).value, EntriesOf(env, AssetMarkets);
            |listed| == |entries| && forall i :: 0 <= i < |entries| ==> listed[i].symbol + ":" + listed[i].assetId == entries[i]
  {
    hide Read, ParseAsset, Raw, Canonical, KindOf, Known, TidyToken, TidyEntry, Split;
    var listed, entries := AssetsOf(env).value, EntriesOf(env, AssetMarkets);
    if Read(env, Id(AssetMarkets)).Some? { AssetsParsed(entries); }
    forall i | 0 <= i < |entries| ensures listed[i].symbol + ":" + listed[i].assetId == entries[i] {
      assert entries[i] in entries;
      AssetTextKept(entries[i]);
    }
  }

  lemma TextsKept(env: Env)
    requires TokensOf(env).Ok? && AssetsOf(env).Ok? && CanonicalEnv(env)
    ensures var labelled := AllLabelled(env, TokensOf(env).value, AssetsOf(env).value);
            TokenTexts(labelled) == EntriesOf(env, EvmTokens) && AssetTexts(labelled) == EntriesOf(env, AssetMarkets)
  {
    hide Read, TokenText, CanonicalEnv, ChainName, EntriesOf, TokensOf, AssetsOf, TokenTexts, AssetTexts;
    var tokens, listed := TokensOf(env).value, AssetsOf(env).value;
    TokensTextKept(env);
    AssetsTextKept(env);
    TextsOfTokens(env, ChainName(env), tokens, EntriesOf(env, EvmTokens));
    TextsOfAll(env, TokensLabelled(env, ChainName(env), tokens), listed, EntriesOf(env, AssetMarkets));
  }

  /** The lists of tokens and of assets come back entry by entry, in their order. */
  lemma ListsKept(env: Env, rows: seq<MarketPair>)
    requires Convertible(env, rows) && CanonicalEnv(env)
    ensures KnobsOf(DocumentOf(env, rows).value).Ok?
    ensures var kept := KnobsOf(DocumentOf(env, rows).value).value;
            Get(kept, EvmTokens) == Read(env, Id(EvmTokens)) && Get(kept, AssetMarkets) == Read(env, Id(AssetMarkets))
  {
    hide DocumentOf, KnobsOf, ChainName, Base, KindOf, Settings, View, LabelledOf, PairOf, AllLabelled, TermSetting,
      TokensOf, AssetsOf, HasChains, StemsOf, KeysAt, Sub, AssetSetting, Read, Encode, EntriesOf, ListText, CanonicalEnv;
    ReadsOk(env, rows);
    ListsOk(env, rows);
    var doc, chainName := DocumentOf(env, rows).value, ChainName(env);
    var labelled := AllLabelled(env, TokensOf(env).value, AssetsOf(env).value);
    DocumentTidy(env, rows);
    KnobAt(env, rows, EvmTokens);
    KnobAt(env, rows, AssetMarkets);
    BaseAt(doc, labelled, chainName, EvmTokens);
    BaseAt(doc, labelled, chainName, AssetMarkets);
    TextsKept(env);
    ListTextOf(env, EvmTokens);
    ListTextOf(env, AssetMarkets);
  }

  /** An exported document is refused exactly when an Arkade asset is listed under bitcoin's own symbol. */
  lemma BitcoinRefused(env: Env, rows: seq<MarketPair>)
    requires DocumentOf(env, rows).Ok?
    ensures KnobsOf(DocumentOf(env, rows).value).Err? <==> exists t :: t in AssetsOf(env).value && t.symbol == "BTC"
  {
    hide DocumentOf, KnobsOf, ChainName, Base, KindOf, Settings, View, PairOf, AllLabelled, TermSetting,
      TokensOf, AssetsOf, Sub, AssetSetting, Read, Encode, LabelledOf;
    ListsOk(env, rows);
    DocumentLabelled(env, rows);
    WhoIsBitcoin(env, TokensOf(env).value, AssetsOf(env).value);
    hide IsBitcoin;
    if LabelledOf(DocumentOf(env, rows).value).Ok? {
      KnobAt(env, rows, EvmTokens);
    } else {
      RefusedEarly(DocumentOf(env, rows).value);
    }
  }

  lemma RefusedEarly(doc: Document)
    requires LabelledOf(doc).Err?
    ensures KnobsOf(doc).Err?
  {
  }

  /** The Arkade assets among the labelled ones are the listed ones. */
  lemma ArkadeLabelled(env: Env, tokens: seq<Token>, listed: seq<AssetToken>, a: Labelled)
    ensures a in AllLabelled(env, tokens, listed) && a.entry.ArkadeAsset? <==> exists t :: t in listed && a == AssetLabelled(env, t)
  {
    hide Read, ChainName;
    var labelled := AllLabelled(env, tokens, listed);
    if t :| t in listed && a == AssetLabelled(env, t) {
      var i :| 0 <= i < |listed| && listed[i] == t;
      assert labelled[|tokens| + i] == a;
    }
  }

  lemma WhoIsBitcoin(env: Env, tokens: seq<Token>, listed: seq<AssetToken>)
    ensures (exists a :: a in AllLabelled(env, tokens, listed) && IsBitcoin(a)) <==> exists t :: t in listed && t.symbol == "BTC"
  {
    hide Read, ChainName, AllLabelled;
    if a :| a in AllLabelled(env, tokens, listed) && IsBitcoin(a) {
      ArkadeLabelled(env, tokens, listed, a);
    }
    if t :| t in listed && t.symbol == "BTC" {
      ArkadeLabelled(env, tokens, listed, AssetLabelled(env, t));
      assert IsBitcoin(AssetLabelled(env, t));
    }
  }
}
