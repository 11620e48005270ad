/**
 * The offer markets through the document: asset ids shown as symbols and read back as ids.
 * They come back as they were exactly when no leg was written as a listed symbol.
 */
module ConfigMarkets {
  import opened Util
  import opened ConfigTrees
  import opened ConfigSchema
  import opened ConfigExport
  import opened ConfigViews
  import opened ConfigExported
  import opened ConfigFlatten
  import opened ConfigReads
  import opened ConfigRoundTrip

  // ---- parts and separators ----

  lemma {:induction false} PartsHold(s: string, separator: char)
    ensures forall part :: part in Split(s, separator) ==> separator !in part
  {
    if s != "" { PartsHold(s[..|s| - 1], separator); }
  }

  lemma {:induction false} SplitLonger(s: string, t: string, separator: char)
    requires separator !in t
    ensures var r := Split(s, separator); Split(s + t, separator) == r[|r| - 1 := r[|r| - 1] + t]
  {
    var r := Split(s, separator);
    if t == "" {
      assert s + t == s && r[|r| - 1] + t == r[|r| - 1];
    } else {
      var n := |t| - 1;
      SplitLonger(s, t[..n], separator);
      assert (s + t)[..|s + t| - 1] == s + t[..n] && (s + t)[|s + t| - 1] == t[n];
      assert t[n] in t;
      assert r[|r| - 1] + t == r[|r| - 1] + t[..n] + [t[n]];
    }
  }

  /** Splitting undoes joining where no part holds the separator. */
  lemma {:induction false} SplitJoin(parts: seq<string>, separator: char)
    requires parts != [] && forall part :: part in parts ==> separator !in part
    ensures Split(Join(parts, separator), separator) == parts
  {
    var n := |parts| - 1;
    assert parts == parts[..n] + [parts[n]] && parts[n] in parts;
    if n == 0 {
      SplitLonger("", parts[0], separator);
      assert "" + parts[0] == parts[0];
    } else {
      SplitJoin(parts[..n], separator);
      var head := Join(parts[..n], separator) + [separator];
      assert head[..|head| - 1] == Join(parts[..n], separator);
      SplitLonger(head, parts[n], separator);
      assert Split(head, separator) == parts[..n] + [""];
      assert Join(parts, separator) == head + parts[n] && "" + parts[n] == parts[n];
    }
  }

  /** Joined parts that are no shorter are no shorter, and as long only when each is. */
  lemma {:induction false} JoinLonger(a: seq<string>, b: seq<string>, separator: char)
    requires |a| == |b| && forall i :: 0 <= i < |a| ==> |a[i]| <= |b[i]|
    ensures |Join(a, separator)| <= |Join(b, separator)|
    ensures (exists i :: 0 <= i < |a| && |a[i]| < |b[i]|) ==> |Join(a, separator)| < |Join(b, separator)|
  {
    if |a| > 1 { JoinLonger(a[..|a| - 1], b[..|b| - 1], separator); }
  }

  // ---- one leg ----

  predicate IsListed(listed: seq<AssetToken>, symbol: string) {
    exists t :: t in listed && t.symbol == symbol
  }

  ghost predicate Proper(listed: seq<AssetToken>) {
    AssetsApart(listed) && forall t :: t in listed ==> IsSymbol(t.symbol) && |t.assetId| == 68
  }

  /** A label read back as an id is a listed asset's symbol. */
  lemma IdOfLabel(env: Env, tokens: seq<Token>, listed: seq<AssetToken>, leg: string)
    ensures var id := IdOf(AllLabelled(env, tokens, listed), leg);
            if IsListed(listed, leg) then id.Some? && exists t :: t in listed && t.symbol == leg && t.assetId == id.value
            else id == None
  {
    hide Read, ChainName, AllLabelled;
    var labelled := AllLabelled(env, tokens, listed);
    var id := IdOf(labelled, leg);
    if id.Some? {
      var a :| a in labelled && a.entry.ArkadeAsset? && LabelText(a.key) == leg && a.entry.assetId == id.value;
      hide IdOf;
      ArkadeLabelled(env, tokens, listed, a);
    } else if t :| t in listed && t.symbol == leg {
      hide IdOf;
      ArkadeLabelled(env, tokens, listed, AssetLabelled(env, t));
    }
  }

  function LegBack(env: Env, tokens: seq<Token>, listed: seq<AssetToken>, leg: string): string {
    LegRead(AllLabelled(env, tokens, listed), LegShown(listed, leg))
  }

  /** A leg comes back as it was, or as a longer id where it was a listed symbol. */
  lemma LegKept(env: Env, tokens: seq<Token>, listed: seq<AssetToken>, leg: string)
    requires Proper(listed)
    ensures var back := LegBack(env, tokens, listed, leg); if IsListed(listed, leg) then |back| > |leg| else back == leg
  {
    hide AllLabelled, IdOf;
    var shown := LegShown(listed, leg);
    assert forall t :: t in listed ==> |t.symbol| <= 12;
    hide IsSymbol;
    IdOfLabel(env, tokens, listed, shown);
  }

  // ---- one market, and all of them ----

  /** A market with a leg written as a listed symbol. */
  predicate NamesSymbol(listed: seq<AssetToken>, market: string) {
    exists leg :: leg in Split(market, '/') && IsListed(listed, leg)
  }

  lemma LegsWhole(listed: seq<AssetToken>, market: string)
    requires Proper(listed)
    ensures var shown := LegsShown(listed, Split(market, '/')); Split(Join(shown, '/'), '/') == shown
  {
    var legs := Split(market, '/');
    var shown := LegsShown(listed, legs);
    PartsHold(market, '/');
    hide Split, Join;
    forall part | part in shown ensures '/' !in part {
      var i :| 0 <= i < |shown| && shown[i] == part;
      assert legs[i] in legs;
    }
    SplitJoin(shown, '/');
  }

  /** A market comes back as it was, or longer where a leg was a listed symbol. */
  lemma MarketKept(env: Env, tokens: seq<Token>, listed: seq<AssetToken>, market: string)
    requires Proper(listed) && Trim(market) == market
    ensures var back := MarketRead(AllLabelled(env, tokens, listed), MarketShown(listed, market));
            if NamesSymbol(listed, market) then |back| > |market| else back == market
  {
    hide AllLabelled, Proper, Split, Join, LegShown, LegRead, Trim;
    var legs, labelled := Split(market, '/'), AllLabelled(env, tokens, listed);
    LegsWhole(listed, market);
    JoinSplit(market, '/');
    var back := LegsRead(labelled, LegsShown(listed, legs));
    forall i | 0 <= i < |legs| ensures if IsListed(listed, legs[i]) then |back[i]| > |legs[i]| else back[i] == legs[i] {
      LegKept(env, tokens, listed, legs[i]);
    }
    hide IsListed;
    if NamesSymbol(listed, market) {
      var leg :| leg in legs && IsListed(listed, leg);
      var i :| 0 <= i < |legs| && legs[i] == leg;
      assert |legs[i]| < |back[i]|;
      JoinLonger(legs, back, '/');
    } else {
      assert forall i :: 0 <= i < |legs| ==> legs[i] in legs;
      assert back == legs;
    }
  }

  lemma MarketsBack(env: Env, tokens: seq<Token>, listed: seq<AssetToken>, raw: string)
    requires Proper(listed) && forall market :: market in Split(raw, ',') ==> Trim(market) == market
    ensures Join(MarketsRead(AllLabelled(env, tokens, listed), MarketsShown(listed, Split(raw, ','))), ',') == raw
            <==> forall market :: market in Split(raw, ',') ==> !NamesSymbol(listed, market)
  {
    hide AllLabelled, Proper, Split, Join, MarketShown, MarketRead, Trim, NamesSymbol;
    var markets, labelled := Split(raw, ','), AllLabelled(env, tokens, listed);
    JoinSplit(raw, ',');
    var back := MarketsRead(labelled, MarketsShown(listed, markets));
    forall i | 0 <= i < |markets|
      ensures if NamesSymbol(listed, markets[i]) then |back[i]| > |markets[i]| else back[i] == markets[i]
    {
      assert markets[i] in markets;
      MarketKept(env, tokens, listed, markets[i]);
    }
    if market :| market in markets && NamesSymbol(listed, market) {
      var i :| 0 <= i < |markets| && markets[i] == market;
      assert |markets[i]| < |back[i]|;
      JoinLonger(markets, back, ',');
    } else {
      assert forall i :: 0 <= i < |markets| ==> markets[i] in markets;
      assert back == markets;
    }
  }

  lemma MarketsAt(env: Env, rows: seq<MarketPair>)
    requires DocumentOf(env, rows).Ok? && LabelledOf(DocumentOf(env, rows).value).Ok?
    ensures KnobsOf(DocumentOf(env, rows).value).Ok?
    ensures var tokens, listed := TokensOf(env).value, AssetsOf(env).value;
            Get(KnobsOf(DocumentOf(env, rows).value).value, OfferMarkets) ==
            match Raw(env, OfferMarkets)
            case None => None
            case Some(raw) => Some(Join(MarketsRead(AllLabelled(env, tokens, listed), MarketsShown(listed, Split(raw, ','))), ','))
  {
    hide DocumentOf, TokensOf, AssetsOf, AllLabelled, ChainName, Sub, Readable, Base, SetCorridors, MarketsRead, MarketsShown, LabelledOf, PairOf,
      IsBitcoin, Raw, Split, Join, View, Settings, HasChains, PlainValue, StemsOf, AssetSetting, TermSetting, KeysAt;
    ListsOk(env, rows);
    var doc, chainName := DocumentOf(env, rows).value, ChainName(env);
    var labelled := AllLabelled(env, TokensOf(env).value, AssetsOf(env).value);
    DocumentLabelled(env, rows);
    DocumentTidy(env, rows);
    CorridorsReadable(env, rows);
    MarketsApart();
    FixedKnown();
    BaseAt(doc, labelled, chainName, OfferMarkets);
    SetCorridorsAt(Base(doc, labelled), labelled, Sub(doc, CorridorsPath), chainName, OfferMarkets);
    DocumentView(env, rows, Setting(OfferMarkets));
    PlainView(doc, chainName, OfferMarkets);
  }

  /** The offer markets come back as the environment has them exactly when no leg was written as a listed symbol. */
  lemma MarketsKept(env: Env, rows: seq<MarketPair>)
    requires Convertible(env, rows) && CanonicalEnv(env)
    ensures KnobsOf(DocumentOf(env, rows).value).Ok?
    ensures Get(KnobsOf(DocumentOf(env, rows).value).value, OfferMarkets) == Raw(env, OfferMarkets)
            <==> (Raw(env, OfferMarkets).Some? ==> forall market :: market in Split(Raw(env, OfferMarkets).value, ',') ==>
                    !NamesSymbol(AssetsOf(env).value, market))
  {
    hide DocumentOf, TokensOf, AssetsOf, AllLabelled, KnobsOf, LabelledOf, Raw, Split, Join, MarketsRead, MarketsShown, NamesSymbol, IsSymbol;
    ReadsOk(env, rows);
    ListsOk(env, rows);
    ListsApart(env);
    ListsProper(env);
    MarketsAt(env, rows);
    if Raw(env, OfferMarkets).Some? {
      MarketsCanonical(env);
      MarketsBack(env, TokensOf(env).value, AssetsOf(env).value, Raw(env, OfferMarkets).value);
    }
  }

  lemma MarketsCanonical(env: Env)
    requires CanonicalEnv(env) && Raw(env, OfferMarkets).Some?
    ensures forall market :: market in Split(Raw(env, OfferMarkets).value, ',') ==> Trim(market) == market
  {
    hide Raw, Split, Trim, TidyToken, TidyEntry, Settings;
    FixedKnown();
    MarketsKind();
  }

  lemma MarketsKind()
    ensures KindOf(Setting(OfferMarkets)) == ListKind
  {
  }

  // ---- an environment for each exception ----

  lemma Untrimmed(s: string)
    requires s != "" && !IsBlank(s[0]) && !IsBlank(s[|s| - 1])
    ensures Trim(s) == s
  {
  }

  lemma OneEntry(s: string, separator: char)
    requires separator !in s
    ensures Split(s, separator) == [s]
  {
    SplitJoin([s], separator);
  }

  lemma TwoParts(a: string, b: string, separator: char)
    requires separator !in a && separator !in b
    ensures Split(a + [separator] + b, separator) == [a, b]
  {
    assert [a, b][..1] == [a];
    SplitJoin([a, b], separator);
  }

  /** A list of one asset. */
  function OneAsset(symbol: string, assetId: string): string {
    symbol + ":" + assetId
  }

  lemma OneAssetListed(env: Env, symbol: string, assetId: string)
    requires IsSymbol(symbol) && IsAssetId(assetId) && Id(AssetMarkets) in env && env[Id(AssetMarkets)] == OneAsset(symbol, assetId)
    ensures Read(env, Id(AssetMarkets)) == Some(OneAsset(symbol, assetId))
    ensures Split(OneAsset(symbol, assetId), ',') == [OneAsset(symbol, assetId)] && TidyEntry(OneAsset(symbol, assetId))
    ensures AssetsOf(env) == Ok([AssetToken(symbol, assetId)])
  {
    var raw := OneAsset(symbol, assetId);
    assert raw[0] == symbol[0] && raw[|raw| - 1] == assetId[67] && assetId[67] in assetId;
    Untrimmed(raw);
    hide Trim;
    TwoParts(symbol, assetId, ':');
    OneEntry(raw, ',');
    hide Split;
    assert ParseAsset(raw) == Ok(AssetToken(symbol, assetId));
    hide ParseAsset;
    OneParsed(raw);
  }

  lemma OneParsed(entry: string)
    requires ParseAsset(entry).Ok?
    ensures ParseAssets([entry]) == Ok([ParseAsset(entry).value])
  {
    hide ParseAsset;
    assert [entry][..0] == [] && [entry][0] == entry;
    assert ParseAssets([entry][..0]) == Ok([]);
    assert [] + [ParseAsset(entry).value] == [ParseAsset(entry).value];
  }

  lemma OneAssetExports(env: Env, symbol: string, assetId: string)
    requires Id(EvmTokens) !in env && Buy(symbol) !in env && Sell(symbol) !in env
    requires AssetsOf(env) == Ok([AssetToken(symbol, assetId)])
    ensures DocumentOf(env, []).Ok?
  {
    hide PutAll, PutFixed, PutNamed, ChainName, PutMarkets, AssetsOf, PutTokens, FieldsOf;
    OnePut(PutTokens(Chained(env), env, ChainName(env), []), env, ChainName(env), AssetToken(symbol, assetId));
  }

  lemma OnePut(doc: Document, env: Env, chainName: string, token: AssetToken)
    requires Buy(token.symbol) !in env && Sell(token.symbol) !in env
    ensures PutAssets(doc, env, chainName, [], [token]).Ok?
  {
    hide PutNamed;
    assert [token][..0] == [] && FindRow([], token.assetId) == None;
    assert PutAssets(doc, env, chainName, [], []) == Ok(doc);
    assert PutAsset(doc, env, chainName, [], token).Ok?;
  }

  /** An asset listed as BTC is exported to a document that is then refused. */
  lemma BitcoinAsset(assetId: string)
    requires IsAssetId(assetId)
    ensures var env := map[Id(AssetMarkets) := OneAsset("BTC", assetId)];
            DocumentOf(env, []).Ok? && KnobsOf(DocumentOf(env, []).value).Err?
  {
    hide IsAssetId, DocumentOf, KnobsOf, OneAsset, AssetsOf;
    var env := map[Id(AssetMarkets) := OneAsset("BTC", assetId)];
    OneAssetListed(env, "BTC", assetId);
    OneAssetExports(env, "BTC", assetId);
    assert AssetsOf(env).value[0].symbol == "BTC";
    BitcoinRefused(env, []);
  }

  lemma OneMarketCanonical(env: Env)
    requires env.Keys == {Id(AssetMarkets), Id(OfferMarkets)}
    requires forall entry :: entry in Split(env[Id(OfferMarkets)], ',') ==> entry != "" && Trim(entry) == entry
    requires Read(env, Id(OfferMarkets)) == Some(env[Id(OfferMarkets)])
    requires Read(env, Id(AssetMarkets)).Some? && forall entry :: entry in Split(Read(env, Id(AssetMarkets)).value, ',') ==> TidyEntry(entry)
    ensures CanonicalEnv(env)
  {
    hide Split, Trim, Settings, EvmFields, TermFields, KindOf, TidyEntry, TidyToken, SectionPath, PlainKind;
    MarketsKind();
    forall knob | Known(Setting(knob)) && Raw(env, knob).Some? ensures Canonical(KindOf(Setting(knob)), Raw(env, knob).value) {
      assert knob == OfferMarkets by { SettingsPlain(knob); }
    }
  }

  /** A market written with a listed symbol comes back with the asset's id instead. */
  lemma SymbolLeg(assetId: string)
    requires IsAssetId(assetId)
    ensures var env: Env := map[Id(AssetMarkets) := OneAsset("USDA", assetId), Id(OfferMarkets) := "USDA/BTC"];
            && Convertible(env, []) && CanonicalEnv(env)
            && KnobsOf(DocumentOf(env, []).value).Ok?
            && Get(KnobsOf(DocumentOf(env, []).value).value, OfferMarkets) != Raw(env, OfferMarkets)
  {
    hide IsAssetId, DocumentOf, KnobsOf, OneAsset, AssetsOf, Get, Known, Canonical, KindOf;
    var env: Env := map[Id(AssetMarkets) := OneAsset("USDA", assetId), Id(OfferMarkets) := "USDA/BTC"];
    OneAssetListed(env, "USDA", assetId);
    OneAssetExports(env, "USDA", assetId);
    Untrimmed("USDA/BTC");
    OneEntry("USDA/BTC", ',');
    assert "USDA/BTC" == "USDA" + ['/'] + "BTC";
    TwoParts("USDA", "BTC", '/');
    assert Split("USDA/BTC", '/')[0] == "USDA";
    hide Split, Trim;
    OneMarketCanonical(env);
    assert AssetsOf(env).value[0].symbol == "USDA";
    hide CanonicalEnv;
    assert IsListed(AssetsOf(env).value, "USDA");
    assert NamesSymbol(AssetsOf(env).value, "USDA/BTC");
    MarketsKept(env, []);
  }
}
