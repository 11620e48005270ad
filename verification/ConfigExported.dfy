/** What an exported document shows in all: every setting of the environment, at its place. */
module ConfigExported {
  import opened Util
  import opened ConfigTrees
  import opened ConfigSchema
  import opened ConfigExport
  import opened ConfigViews

  function TokenFor(tokens: seq<Token>, symbol: string): (r: Option<Token>)
    ensures r.Some? ==> r.value in tokens && r.value.symbol == symbol
    ensures r.None? ==> forall t :: t in tokens ==> t.symbol != symbol
  {
    if tokens == [] then None
    else if tokens[|tokens| - 1].symbol == symbol then Some(tokens[|tokens| - 1])
    else TokenFor(tokens[..|tokens| - 1], symbol)
  }

  function AssetFor(tokens: seq<AssetToken>, symbol: string): (r: Option<AssetToken>)
    ensures r.Some? ==> r.value in tokens && r.value.symbol == symbol
    ensures r.None? ==> forall t :: t in tokens ==> t.symbol != symbol
  {
    if tokens == [] then None
    else if tokens[|tokens| - 1].symbol == symbol then Some(tokens[|tokens| - 1])
    else AssetFor(tokens[..|tokens| - 1], symbol)
  }

  /** The corridors a document for these tokens and assets may name. */
  ghost function StemsOf(tokens: seq<Token>, listed: seq<AssetToken>): set<Stem> {
    (set stem | stem in FixedStems)
    + (set t | t in tokens :: EvmSend(t.symbol)) + (set t | t in tokens :: EvmReceive(t.symbol))
    + (set t | t in listed :: FromBtc(t.symbol)) + (set t | t in listed :: ToBtc(t.symbol))
  }

  ghost predicate Serves(tokens: seq<Token>, listed: seq<AssetToken>, stem: Stem) {
    match stem
    case EvmSend(symbol) => TokenFor(tokens, symbol).Some?
    case EvmReceive(symbol) => TokenFor(tokens, symbol).Some?
    case FromBtc(symbol) => AssetFor(listed, symbol).Some?
    case ToBtc(symbol) => AssetFor(listed, symbol).Some?
    case _ => true
  }

  lemma StemsServed(tokens: seq<Token>, listed: seq<AssetToken>, stem: Stem)
    ensures stem in StemsOf(tokens, listed) <==> Serves(tokens, listed, stem)
  {
  }

  // ---- the steps ----

  lemma TermsKnown(stem: Stem, stems: set<Stem>)
    requires stem in stems
    ensures forall knob :: knob in TermsOf(stem) ==> Fits(Setting(knob), stems)
    ensures AllKnown(TermsOf(stem))
  {
    assert forall field :: field in FieldsOf(FamilyOf(stem)) ==> field in TermFields;
  }

  lemma FixedKnown()
    ensures AllKnown(Settings) && AllKnown(ChainKnobs(EvmFields)) && Known(Setting(OfferMarkets))
    ensures forall knob :: knob in Settings ==> knob.Plain?
  {
    hide EvmFields;
    forall knob | knob in Settings ensures knob.Plain? && Known(Setting(knob)) {
      SettingsAreLeaves(knob);
    }
    hide Settings;
  }

  lemma MarketsApart()
    ensures OfferMarkets !in Settings
  {
  }

  /** Is `slot` a term of this corridor that the corridor's family has? */
  predicate IsTermOf(slot: Slot, stem: Stem) {
    slot.Setting? && slot.knob.Term? && slot.knob.stem == stem && slot.knob.field in FieldsOf(FamilyOf(stem))
  }

  lemma PutTermsView(doc: Document, env: Env, chainName: string, stem: Stem, slot: Slot)
    requires Known(slot)
    ensures View(PutAll(doc, env, chainName, TermsOf(stem)), chainName, slot) ==
            if IsTermOf(slot, stem) && Raw(env, slot.knob).Some? then Shown(slot.knob, Raw(env, slot.knob)) else View(doc, chainName, slot)
  {
    hide Known, View, PutAll, Shown, Raw, FieldsOf, FamilyOf;
    TermsKnown(stem, {stem});
    PutAllView(doc, env, chainName, TermsOf(stem), slot);
  }

  lemma {:induction false} PutFixedView(doc: Document, env: Env, chainName: string, stems: seq<Stem>, slot: Slot)
    requires Known(slot)
    ensures View(PutFixed(doc, env, chainName, stems), chainName, slot) ==
            if slot.Setting? && slot.knob.Term? && slot.knob.stem in stems then
              if slot.knob.field in FieldsOf(FamilyOf(slot.knob.stem)) then Shown(slot.knob, Raw(env, slot.knob)) else None
            else View(doc, chainName, slot)
  {
    hide Known, View, PutAll, Raw, FieldsOf, FamilyOf, OpenPair, TermsOf;
    if stems != [] {
      var n := |stems| - 1;
      PutFixedView(doc, env, chainName, stems[..n], slot);
      var before := PutFixed(doc, env, chainName, stems[..n]);
      OpenPairView(before, stems[n], chainName, slot);
      PutTermsView(OpenPair(before, stems[n], chainName), env, chainName, stems[n], slot);
    }
  }

  lemma {:induction false} PutFixedTidy(doc: Document, env: Env, chainName: string, stems: seq<Stem>, all: set<Stem>, begun: set<Stem>)
    requires Tidy(doc, chainName, all, begun) && forall stem :: stem in stems ==> stem in all
    ensures Tidy(PutFixed(doc, env, chainName, stems), chainName, all, begun + (set stem | stem in stems))
    ensures KeysAt(PutFixed(doc, env, chainName, stems), AssetsPath) == KeysAt(doc, AssetsPath)
  {
    hide Known, Tidy, PutAll, Raw, FieldsOf, FamilyOf, OpenPair, TermsOf, KeysAt;
    if stems == [] {
      assert begun + (set stem | stem in stems) == begun;
    } else {
      var n := |stems| - 1;
      PutFixedTidy(doc, env, chainName, stems[..n], all, begun);
      var before, sofar := PutFixed(doc, env, chainName, stems[..n]), begun + (set stem | stem in stems[..n]);
      OpenPairTidy(before, chainName, all, sofar, stems[n]);
      OpenPairKeys(before, stems[n], chainName);
      TermsKnown(stems[n], all);
      var open := OpenPair(before, stems[n], chainName);
      PutAllTidy(open, env, chainName, all, sofar + {stems[n]}, TermsOf(stems[n]));
      PutAllAssetKeys(open, env, chainName, TermsOf(stems[n]));
      assert sofar + {stems[n]} == begun + (set stem | stem in stems);
    }
  }

  // ---- tokens ----

  function TokenLabel(token: Token, chainName: string): Key {
    Label(token.symbol, Some(chainName))
  }

  lemma PutTokenView(doc: Document, env: Env, chainName: string, token: Token, slot: Slot)
    requires Known(slot)
    ensures View(PutToken(doc, env, chainName, token), chainName, slot) ==
            if slot == AssetAt(TokenLabel(token, chainName)) then Some(TokenNode(env, chainName, token))
            else if (IsTermOf(slot, EvmSend(token.symbol)) || IsTermOf(slot, EvmReceive(token.symbol))) && Raw(env, slot.knob).Some?
            then Shown(slot.knob, Raw(env, slot.knob))
            else View(doc, chainName, slot)
  {
    hide View, PutAll, Raw, FieldsOf, FamilyOf, TermsOf, OpenChain, SetAt, Shown, TokenNode;
    OpenChainView(doc, chainName, slot);
    var open, named := OpenChain(doc, chainName), AssetAt(TokenLabel(token, chainName));
    SetView(open, chainName, named, TokenNode(env, chainName, token), slot);
    var with := SetAt(open, SlotPath(named, chainName), TokenNode(env, chainName, token));
    PutTermsView(with, env, chainName, EvmSend(token.symbol), slot);
    PutTermsView(PutAll(with, env, chainName, TermsOf(EvmSend(token.symbol))), env, chainName, EvmReceive(token.symbol), slot);
  }

  lemma PutTokenTidy(doc: Document, env: Env, chainName: string, token: Token, all: set<Stem>, begun: set<Stem>)
    requires Tidy(doc, chainName, all, begun) && EvmSend(token.symbol) in all && EvmReceive(token.symbol) in all
    ensures var next := PutToken(doc, env, chainName, token);
            && Tidy(next, chainName, all, begun) && HasChains(next)
            && KeysAt(next, AssetsPath) == Append(KeysAt(doc, AssetsPath), TokenLabel(token, chainName))
  {
    hide Known, Tidy, PutAll, Raw, FieldsOf, FamilyOf, TermsOf, OpenChain, SetAt, TokenNode, KeysAt, Append, At;
    OpenChainTidy(doc, chainName, all, begun);
    OpenChainKeys(doc, chainName);
    var open, named := OpenChain(doc, chainName), AssetAt(TokenLabel(token, chainName));
    assert Known(named) by { KnownLabel(TokenLabel(token, chainName)); }
    SetTidy(open, chainName, all, begun, named, TokenNode(env, chainName, token));
    OpenSections(LnSend, chainName);
    InSections(named, chainName);
    SetKeys(open, chainName, named, TokenNode(env, chainName, token), AssetsPath);
    var with := SetAt(open, SlotPath(named, chainName), TokenNode(env, chainName, token));
    TermsKnown(EvmSend(token.symbol), all);
    TermsKnown(EvmReceive(token.symbol), all);
    PutHasChains(open, chainName, named, TokenNode(env, chainName, token));
    PutAllHasChains(with, env, chainName, TermsOf(EvmSend(token.symbol)));
    PutAllTidy(with, env, chainName, all, begun, TermsOf(EvmSend(token.symbol)));
    PutAllAssetKeys(with, env, chainName, TermsOf(EvmSend(token.symbol)));
    var sending := PutAll(with, env, chainName, TermsOf(EvmSend(token.symbol)));
    PutAllHasChains(sending, env, chainName, TermsOf(EvmReceive(token.symbol)));
    PutAllTidy(sending, env, chainName, all, begun, TermsOf(EvmReceive(token.symbol)));
    PutAllAssetKeys(sending, env, chainName, TermsOf(EvmReceive(token.symbol)));
  }

  lemma KnownLabel(key: Key)
    requires key.Label?
    ensures Known(AssetAt(key))
  {
  }

  function TokenLabels(tokens: seq<Token>, chainName: string): (r: seq<Key>)
    ensures |r| == |tokens| && forall i :: 0 <= i < |tokens| ==> r[i] == TokenLabel(tokens[i], chainName)
  {
    seq(|tokens|, i requires 0 <= i < |tokens| => TokenLabel(tokens[i], chainName))
  }

  /** The symbol of the ERC-20 token a slot is about, if it is about one. */
  function TokenSymbol(slot: Slot, chainName: string): Option<string> {
    match slot
    case AssetAt(Label(symbol, Some(on))) => if on == chainName then Some(symbol) else None
    case Setting(Term(EvmSend(symbol), _)) => Some(symbol)
    case Setting(Term(EvmReceive(symbol), _)) => Some(symbol)
    case _ => None
  }

  /** What a listed token's slot shows; none when it is left as it was. */
  function TokenShown(env: Env, chainName: string, token: Token, slot: Slot): Option<Node> {
    match slot
    case AssetAt(_) => Some(TokenNode(env, chainName, token))
    case Setting(knob) => if knob.Term? && IsTermOf(slot, knob.stem) then Shown(knob, Raw(env, knob)) else None
  }

  lemma {:induction false} PutTokensView(doc: Document, env: Env, chainName: string, tokens: seq<Token>, slot: Slot)
    requires Known(slot)
    ensures var symbol := TokenSymbol(slot, chainName);
            View(PutTokens(doc, env, chainName, tokens), chainName, slot) ==
            if symbol.Some? && TokenFor(tokens, symbol.value).Some?
               && TokenShown(env, chainName, TokenFor(tokens, symbol.value).value, slot).Some?
            then TokenShown(env, chainName, TokenFor(tokens, symbol.value).value, slot)
            else View(doc, chainName, slot)
  {
    hide Known, View, PutToken, Raw, FieldsOf, FamilyOf, Shown, TokenNode;
    if tokens != [] {
      var n := |tokens| - 1;
      PutTokensView(doc, env, chainName, tokens[..n], slot);
      PutTokenView(PutTokens(doc, env, chainName, tokens[..n]), env, chainName, tokens[n], slot);
      ShownIff(env, slot);
    }
  }

  lemma ShownIff(env: Env, slot: Slot)
    ensures slot.Setting? ==> (Shown(slot.knob, Raw(env, slot.knob)).Some? <==> Raw(env, slot.knob).Some?)
  {
  }

  ghost predicate TokensApart(tokens: seq<Token>) {
    forall i, j :: 0 <= i < j < |tokens| ==> tokens[i].symbol != tokens[j].symbol
  }

  lemma {:induction false} PutTokensTidy(doc: Document, env: Env, chainName: string, tokens: seq<Token>, all: set<Stem>, begun: set<Stem>)
    requires Tidy(doc, chainName, all, begun) && TokensApart(tokens) && KeysAt(doc, AssetsPath) == []
    requires forall t :: t in tokens ==> EvmSend(t.symbol) in all && EvmReceive(t.symbol) in all
    ensures var next := PutTokens(doc, env, chainName, tokens);
            && Tidy(next, chainName, all, begun)
            && (tokens != [] || HasChains(doc) ==> HasChains(next))
            && KeysAt(next, AssetsPath) == TokenLabels(tokens, chainName)
  {
    hide Tidy, PutToken, KeysAt, HasChains;
    if tokens == [] {
      assert TokenLabels(tokens, chainName) == [];
    } else {
      var n := |tokens| - 1;
      PutTokensTidy(doc, env, chainName, tokens[..n], all, begun);
      PutTokenTidy(PutTokens(doc, env, chainName, tokens[..n]), env, chainName, tokens[n], all, begun);
      assert TokenLabels(tokens, chainName) == TokenLabels(tokens[..n], chainName) + [TokenLabel(tokens[n], chainName)];
    }
  }

  // ---- assets ----

  function AssetLabel(token: AssetToken): Key {
    Label(token.symbol, None)
  }

  function AssetLabels(tokens: seq<AssetToken>): (r: seq<Key>)
    ensures |r| == |tokens| && forall i :: 0 <= i < |tokens| ==> r[i] == AssetLabel(tokens[i])
  {
    seq(|tokens|, i requires 0 <= i < |tokens| => AssetLabel(tokens[i]))
  }

  /** What the environment says of an asset's direction: the old name for it in the stored row, or the setting's own. */
  function DirectionRaw(env: Env, rows: seq<MarketPair>, token: AssetToken, givesAsset: bool): Option<string> {
    var own := Read(env, Id(Direction(token.symbol, givesAsset)));
    match FindRow(rows, token.assetId)
    case None => own
    case Some(row) =>
      var former := Read(env, if givesAsset == (row.base == Some(token.assetId)) then Buy(token.symbol) else Sell(token.symbol));
      if former.Some? then former else own
  }

  /** What an asset's slot shows; none when it is left as it was. */
  function AssetShown(env: Env, rows: seq<MarketPair>, token: AssetToken, slot: Slot): Option<Node> {
    match slot
    case AssetAt(_) => Some(AssetNode(env, token))
    case Setting(Term(ToBtc(_), enabled)) => Shown(Direction(token.symbol, true), DirectionRaw(env, rows, token, true))
    case Setting(Term(FromBtc(_), enabled)) => Shown(Direction(token.symbol, false), DirectionRaw(env, rows, token, false))
    case _ => None
  }

  function AssetSymbol(slot: Slot): Option<string> {
    match slot
    case AssetAt(Label(symbol, None)) => Some(symbol)
    case Setting(Term(ToBtc(symbol), _)) => Some(symbol)
    case Setting(Term(FromBtc(symbol), _)) => Some(symbol)
    case _ => None
  }

  lemma DirectionKnown(symbol: string, givesAsset: bool)
    ensures Known(Setting(Direction(symbol, givesAsset)))
  {
  }

  lemma DirectionsView(doc: Document, env: Env, chainName: string, symbol: string, assetIsBase: bool, slot: Slot)
    requires Known(slot)
    ensures View(PutDirections(doc, env, chainName, symbol, assetIsBase), chainName, slot) ==
            if slot == Setting(Direction(symbol, assetIsBase)) && Read(env, Buy(symbol)).Some? then Shown(slot.knob, Read(env, Buy(symbol)))
            else if slot == Setting(Direction(symbol, !assetIsBase)) && Read(env, Sell(symbol)).Some? then Shown(slot.knob, Read(env, Sell(symbol)))
            else View(doc, chainName, slot)
  {
    hide Known, View, Put, Read, Shown;
    DirectionKnown(symbol, true);
    DirectionKnown(symbol, false);
    PutView(doc, chainName, Direction(symbol, assetIsBase), Read(env, Buy(symbol)), slot);
    var bought := Put(doc, chainName, Direction(symbol, assetIsBase), Read(env, Buy(symbol)));
    PutView(bought, chainName, Direction(symbol, !assetIsBase), Read(env, Sell(symbol)), slot);
  }

  lemma PutNamedView(doc: Document, env: Env, chainName: string, token: AssetToken, slot: Slot)
    requires Known(slot)
    ensures var symbol := token.symbol;
            View(PutNamed(doc, env, chainName, token), chainName, slot) ==
            if slot == AssetAt(AssetLabel(token)) then Some(AssetNode(env, token))
            else if (slot == Setting(Direction(symbol, true)) || slot == Setting(Direction(symbol, false))) && Read(env, Id(slot.knob)).Some?
            then Shown(slot.knob, Read(env, Id(slot.knob)))
            else View(doc, chainName, slot)
  {
    hide Known, View, SetAt, AssetNode, Put, Read, SchemaAt, KindOf, Shown;
    var symbol, named := token.symbol, AssetAt(AssetLabel(token));
    KnownLabel(AssetLabel(token));
    DirectionKnown(symbol, true);
    DirectionKnown(symbol, false);
    SetView(doc, chainName, named, AssetNode(env, token), slot);
    var with := SetAt(doc, SlotPath(named, chainName), AssetNode(env, token));
    hide SlotPath;
    var own, other := Read(env, Id(Direction(symbol, true))), Read(env, Id(Direction(symbol, false)));
    PutView(with, chainName, Direction(symbol, true), own, slot);
    PutView(Put(with, chainName, Direction(symbol, true), own), chainName, Direction(symbol, false), other, slot);
  }

  lemma PutAssetView(doc: Document, env: Env, chainName: string, rows: seq<MarketPair>, token: AssetToken, slot: Slot)
    requires Known(slot) && PutAsset(doc, env, chainName, rows, token).Ok?
    ensures View(PutAsset(doc, env, chainName, rows, token).value, chainName, slot) ==
            if AssetSymbol(slot) == Some(token.symbol) && AssetShown(env, rows, token, slot).Some?
            then AssetShown(env, rows, token, slot)
            else View(doc, chainName, slot)
  {
    hide Known, View, AssetNode, Read, PutNamed, PutDirections, FindRow, Decode, KindOf;
    PutNamedView(doc, env, chainName, token, slot);
    var named, row := PutNamed(doc, env, chainName, token), FindRow(rows, token.assetId);
    if row.Some? { DirectionsView(named, env, chainName, token.symbol, row.value.base == Some(token.assetId), slot); }
  }

  lemma PutAssetTidy(doc: Document, env: Env, chainName: string, rows: seq<MarketPair>, token: AssetToken, all: set<Stem>, begun: set<Stem>)
    requires Tidy(doc, chainName, all, begun) && FromBtc(token.symbol) in all && ToBtc(token.symbol) in all
    requires PutAsset(doc, env, chainName, rows, token).Ok?
    ensures var next := PutAsset(doc, env, chainName, rows, token).value;
            && Tidy(next, chainName, all, begun)
            && (HasChains(doc) ==> HasChains(next))
            && KeysAt(next, AssetsPath) == Append(KeysAt(doc, AssetsPath), AssetLabel(token))
  {
    hide Known, View, SetAt, AssetNode, Read, Decode, SchemaAt, KindOf, Tidy, KeysAt, Append;
    var symbol, named := token.symbol, AssetAt(AssetLabel(token));
    KnownLabel(AssetLabel(token));
    SetTidy(doc, chainName, all, begun, named, AssetNode(env, token));
    OpenSections(LnSend, chainName);
    InSections(named, chainName);
    SetKeys(doc, chainName, named, AssetNode(env, token), AssetsPath);
    var with := SetAt(doc, SlotPath(named, chainName), AssetNode(env, token));
    if HasChains(doc) { PutHasChains(doc, chainName, named, AssetNode(env, token)); }
    hide SlotPath, Put, HasChains;
    var own, other := Read(env, Id(Direction(symbol, true))), Read(env, Id(Direction(symbol, false)));
    PutDirection(with, chainName, all, begun, symbol, true, own);
    var gives := Put(with, chainName, Direction(symbol, true), own);
    PutDirection(gives, chainName, all, begun, symbol, false, other);
    var gets := Put(gives, chainName, Direction(symbol, false), other);
    var row := FindRow(rows, token.assetId);
    if row.Some? {
      var base := row.value.base == Some(token.assetId);
      PutDirection(gets, chainName, all, begun, symbol, base, Read(env, Buy(symbol)));
      var bought := Put(gets, chainName, Direction(symbol, base), Read(env, Buy(symbol)));
      PutDirection(bought, chainName, all, begun, symbol, !base, Read(env, Sell(symbol)));
    }
  }

  lemma PutDirection(doc: Document, chainName: string, all: set<Stem>, begun: set<Stem>, symbol: string, givesAsset: bool, raw: Option<string>)
    requires Tidy(doc, chainName, all, begun) && FromBtc(symbol) in all && ToBtc(symbol) in all
    ensures var next := Put(doc, chainName, Direction(symbol, givesAsset), raw);
            && Tidy(next, chainName, all, begun)
            && (HasChains(doc) ==> HasChains(next))
            && KeysAt(next, AssetsPath) == KeysAt(doc, AssetsPath)
  {
    hide Tidy, KeysAt, HasChains, SchemaAt, SetAt, Decode, SlotPath;
    var knob := Direction(symbol, givesAsset);
    DirectionKnown(symbol, givesAsset);
    PutTidy(doc, chainName, all, begun, knob, raw);
    PutAssetKeys(doc, chainName, knob, raw);
    if HasChains(doc) && raw.Some? {
      PutHasChains(doc, chainName, Setting(knob), Leaf(Decode(KindAt(SlotPath(Setting(knob), chainName)), raw.value)));
    }
  }

  ghost predicate AssetsApart(tokens: seq<AssetToken>) {
    forall i, j :: 0 <= i < j < |tokens| ==> tokens[i].symbol != tokens[j].symbol && tokens[i].assetId != tokens[j].assetId
  }

  lemma {:induction false} PutAssetsView(doc: Document, env: Env, chainName: string, rows: seq<MarketPair>, tokens: seq<AssetToken>, slot: Slot)
    requires Known(slot) && PutAssets(doc, env, chainName, rows, tokens).Ok? && AssetsApart(tokens)
    ensures var symbol := AssetSymbol(slot);
            View(PutAssets(doc, env, chainName, rows, tokens).value, chainName, slot) ==
            if symbol.Some? && AssetFor(tokens, symbol.value).Some?
               && AssetShown(env, rows, AssetFor(tokens, symbol.value).value, slot).Some?
            then AssetShown(env, rows, AssetFor(tokens, symbol.value).value, slot)
            else View(doc, chainName, slot)
  {
    hide Known, View, PutAsset;
    if tokens != [] {
      var n := |tokens| - 1;
      PutAssetsView(doc, env, chainName, rows, tokens[..n], slot);
      PutAssetView(PutAssets(doc, env, chainName, rows, tokens[..n]).value, env, chainName, rows, tokens[n], slot);
      hide AssetShown;
    }
  }

  lemma {:induction false} PutAssetsTidy(doc: Document, env: Env, chainName: string, rows: seq<MarketPair>, tokens: seq<AssetToken>,
                                         all: set<Stem>, begun: set<Stem>, earlier: seq<Key>)
    requires Tidy(doc, chainName, all, begun) && AssetsApart(tokens) && PutAssets(doc, env, chainName, rows, tokens).Ok?
    requires KeysAt(doc, AssetsPath) == earlier && forall key :: key in earlier ==> key.Label? && key.on.Some?
    requires forall t :: t in tokens ==> FromBtc(t.symbol) in all && ToBtc(t.symbol) in all
    ensures var next := PutAssets(doc, env, chainName, rows, tokens).value;
            && Tidy(next, chainName, all, begun)
            && (HasChains(doc) ==> HasChains(next))
            && KeysAt(next, AssetsPath) == earlier + AssetLabels(tokens)
  {
    hide Tidy, PutAsset, KeysAt, HasChains;
    if tokens == [] {
      assert earlier + AssetLabels(tokens) == earlier;
    } else {
      var n := |tokens| - 1;
      PutAssetsTidy(doc, env, chainName, rows, tokens[..n], all, begun, earlier);
      PutAssetTidy(PutAssets(doc, env, chainName, rows, tokens[..n]).value, env, chainName, rows, tokens[n], all, begun);
      assert earlier + AssetLabels(tokens) == earlier + AssetLabels(tokens[..n]) + [AssetLabel(tokens[n])];
    }
  }

  // ---- the whole document ----

  lemma {:induction false} TokensParsed(entries: seq<string>)
    requires ParseTokens(entries).Ok?
    ensures TokensApart(ParseTokens(entries).value)
    ensures forall i :: 0 <= i < |entries| ==> ParseToken(entries[i]) == Ok(ParseTokens(entries).value[i])
  {
    hide ParseToken;
    if entries != [] {
      TokensParsed(entries[..|entries| - 1]);
    }
  }

  lemma {:induction false} AssetsParsed(entries: seq<string>)
    requires ParseAssets(entries).Ok?
    ensures AssetsApart(ParseAssets(entries).value)
    ensures forall i :: 0 <= i < |entries| ==> ParseAsset(entries[i]) == Ok(ParseAssets(entries).value[i])
  {
    hide ParseAsset;
    if entries != [] {
      AssetsParsed(entries[..|entries| - 1]);
    }
  }

  /** What an exported document shows at a slot. */
  ghost function Exported(env: Env, rows: seq<MarketPair>, tokens: seq<Token>, listed: seq<AssetToken>, slot: Slot): Option<Node> {
    match slot
    case AssetAt(Label(symbol, Some(on))) =>
      if on == ChainName(env) && TokenFor(tokens, symbol).Some?
      then Some(TokenNode(env, on, TokenFor(tokens, symbol).value)) else None
    case AssetAt(Label(symbol, None)) =>
      if AssetFor(listed, symbol).Some? then Some(AssetNode(env, AssetFor(listed, symbol).value)) else None
    case Setting(Term(stem, field)) =>
      if Serves(tokens, listed, stem) && field in FieldsOf(FamilyOf(stem))
      then Shown(slot.knob, TermRaw(env, rows, listed, stem, field)) else None
    case Setting(knob) =>
      if knob != OfferMarkets then Shown(knob, Raw(env, knob))
      else if Raw(env, knob).Some? then Some(Leaf(List(MarketsShown(listed, Split(Raw(env, knob).value, ','))))) else None
    case _ => None
  }

  /** What the environment says of a corridor's term. */
  function TermRaw(env: Env, rows: seq<MarketPair>, listed: seq<AssetToken>, stem: Stem, field: Word): Option<string> {
    match stem
    case ToBtc(symbol) =>
      if AssetFor(listed, symbol).Some? then DirectionRaw(env, rows, AssetFor(listed, symbol).value, true) else None
    case FromBtc(symbol) =>
      if AssetFor(listed, symbol).Some? then DirectionRaw(env, rows, AssetFor(listed, symbol).value, false) else None
    case _ => Raw(env, Term(stem, field))
  }

  lemma EmptyView(chainName: string, slot: Slot)
    ensures View([], chainName, slot) == None
  {
    if SlotPath(slot, chainName) != [] { EmptySub(SlotPath(slot, chainName)[..|SlotPath(slot, chainName)| - 1]); }
  }

  lemma {:induction false} EmptySub(path: seq<Key>)
    ensures Sub([], path) == [] && KeysAt([], path) == []
    decreases |path|
  {
    NoKeys();
    if path != [] {
      assert Child([], path[0]) == [];
      EmptySub(path[1..]);
    }
  }

  lemma EmptyTidy(chainName: string, all: set<Stem>)
    ensures Tidy([], chainName, all, {}) && KeysAt([], AssetsPath) == []
  {
    hide Sub, PairOf;
    EmptySub(ChainsPath);
    EmptySub(AssetsPath);
    EmptySub(CorridorsPath);
    EmptySub([Fixed(rails)]);
    assert ChainsPath[..1] == [Fixed(rails)];
    forall stem ensures TidyTerms(KeysAt([], TermsAt(stem, chainName)), stem) { EmptySub(TermsAt(stem, chainName)); }
  }

  /** The steps before any token or asset: plain settings, fixed corridors, the chain. */
  function Chained(env: Env): Document {
    var chainName := ChainName(env);
    PutAll(PutFixed(PutAll([], env, chainName, Settings), env, chainName, FixedStems), env, chainName, ChainKnobs(EvmFields))
  }

  /** What the document shows before any token or asset. */
  function ChainedShown(env: Env, slot: Slot): Option<Node> {
    match slot
    case AssetAt(_) => None
    case Setting(Term(stem, field)) => if stem in FixedStems && field in FieldsOf(FamilyOf(stem)) then Shown(slot.knob, Raw(env, slot.knob)) else None
    case Setting(knob) => if knob == OfferMarkets then None else Shown(knob, Raw(env, knob))
  }

  lemma ChainedView(env: Env, slot: Slot)
    requires Known(slot)
    ensures View(Chained(env), ChainName(env), slot) == ChainedShown(env, slot)
  {
    hide View, PutAll, PutFixed, FieldsOf, FamilyOf, ChainName, Raw, FixedStems, EvmFields, Settings, TermFields;
    var chainName := ChainName(env);
    FixedKnown();
    MarketsApart();
    EmptyView(chainName, slot);
    PutAllView([], env, chainName, Settings, slot);
    var plain := PutAll([], env, chainName, Settings);
    PutFixedView(plain, env, chainName, FixedStems, slot);
    PutAllView(PutFixed(plain, env, chainName, FixedStems), env, chainName, ChainKnobs(EvmFields), slot);
  }

  lemma ChainedTidy(env: Env, all: set<Stem>)
    requires forall stem :: stem in FixedStems ==> stem in all
    ensures Tidy(Chained(env), ChainName(env), all, set stem | stem in FixedStems) && KeysAt(Chained(env), AssetsPath) == []
  {
    hide Tidy, PutAll, PutFixed, FieldsOf, FamilyOf, ChainName, FixedStems, EvmFields, Settings, TermFields, KeysAt;
    var chainName := ChainName(env);
    FixedKnown();
    EmptyTidy(chainName, all);
    PutAllTidy([], env, chainName, all, {}, Settings);
    PutAllAssetKeys([], env, chainName, Settings);
    var plain := PutAll([], env, chainName, Settings);
    PutFixedTidy(plain, env, chainName, FixedStems, all, {});
    var fixed, begun := PutFixed(plain, env, chainName, FixedStems), set stem | stem in FixedStems;
    assert {} + begun == begun;
    PutAllTidy(fixed, env, chainName, all, begun, ChainKnobs(EvmFields));
    PutAllAssetKeys(fixed, env, chainName, ChainKnobs(EvmFields));
  }

  lemma PutMarketsView(doc: Document, env: Env, chainName: string, listed: seq<AssetToken>, slot: Slot)
    requires Known(slot)
    ensures View(PutMarkets(doc, env, listed), chainName, slot) ==
            if slot == Setting(OfferMarkets) && Raw(env, OfferMarkets).Some?
            then Some(Leaf(List(MarketsShown(listed, Split(Raw(env, OfferMarkets).value, ',')))))
            else View(doc, chainName, slot)
  {
    hide Known, View, SetAt, Raw;
    FixedKnown();
    MarketsPath(chainName);
    match Raw(env, OfferMarkets)
    case None =>
    case Some(raw) => SetView(doc, chainName, Setting(OfferMarkets), Leaf(List(MarketsShown(listed, Split(raw, ',')))), slot);
  }

  lemma MarketsPath(chainName: string)
    ensures SlotPath(Setting(OfferMarkets), chainName) == [Fixed(offers), Fixed(markets)]
  {
    assert SectionPath(Offers) == [Fixed(offers)];
  }

  /** What the tokens, the assets and the markets put over that, in turn. */
  ghost function Layered(env: Env, rows: seq<MarketPair>, tokens: seq<Token>, listed: seq<AssetToken>, slot: Slot): Option<Node> {
    var token := TokenSymbol(slot, ChainName(env));
    var asset := AssetSymbol(slot);
    if slot == Setting(OfferMarkets) && Raw(env, OfferMarkets).Some? then
      Some(Leaf(List(MarketsShown(listed, Split(Raw(env, OfferMarkets).value, ',')))))
    else if asset.Some? && AssetFor(listed, asset.value).Some? && AssetShown(env, rows, AssetFor(listed, asset.value).value, slot).Some? then
      AssetShown(env, rows, AssetFor(listed, asset.value).value, slot)
    else if token.Some? && TokenFor(tokens, token.value).Some?
            && TokenShown(env, ChainName(env), TokenFor(tokens, token.value).value, slot).Some? then
      TokenShown(env, ChainName(env), TokenFor(tokens, token.value).value, slot)
    else ChainedShown(env, slot)
  }

  lemma DocumentLayers(env: Env, rows: seq<MarketPair>, slot: Slot)
    requires DocumentOf(env, rows).Ok? && Known(slot)
    ensures View(DocumentOf(env, rows).value, ChainName(env), slot) == Layered(env, rows, TokensOf(env).value, AssetsOf(env).value, slot)
  {
    hide Known, View, PutTokens, PutAssets, PutMarkets, PutAll, PutFixed, ChainName, Raw, TokensOf, AssetsOf, Settings, AssetShown, TokenShown,
      ChainedShown, TokenSymbol, AssetSymbol, MarketsShown, Split, TokenFor, AssetFor;
    var chainName, tokens, listed := ChainName(env), TokensOf(env).value, AssetsOf(env).value;
    ListsApart(env);
    ChainedView(env, slot);
    PutTokensView(Chained(env), env, chainName, tokens, slot);
    var tokened := PutTokens(Chained(env), env, chainName, tokens);
    PutAssetsView(tokened, env, chainName, rows, listed, slot);
    PutMarketsView(PutAssets(tokened, env, chainName, rows, listed).value, env, chainName, listed, slot);
  }

  lemma TermLayers(env: Env, rows: seq<MarketPair>, tokens: seq<Token>, listed: seq<AssetToken>, stem: Stem, field: Word)
    ensures var slot := Setting(Term(stem, field)); Layered(env, rows, tokens, listed, slot) == Exported(env, rows, tokens, listed, slot)
  {
    hide ChainName, Raw, DirectionRaw, MarketsShown, Split, Decode, KindOf, AssetNode, TokenNode, TokenFor, AssetFor;
  }

  lemma OtherLayers(env: Env, rows: seq<MarketPair>, tokens: seq<Token>, listed: seq<AssetToken>, slot: Slot)
    requires Known(slot) && !(slot.Setting? && slot.knob.Term?)
    ensures Layered(env, rows, tokens, listed, slot) == Exported(env, rows, tokens, listed, slot)
  {
    hide ChainName, Raw, DirectionRaw, MarketsShown, Split, Shown, AssetNode, TokenNode, FieldsOf, FamilyOf, Settings, TokenFor, AssetFor;
    if slot.Setting? && slot.knob == OfferMarkets { UnsetShown(OfferMarkets); }
  }

  lemma UnsetShown(knob: Knob)
    ensures Shown(knob, None) == None
  {
  }

  /** An exported document shows, at every slot, what the environment says of it. */
  lemma DocumentView(env: Env, rows: seq<MarketPair>, slot: Slot)
    requires DocumentOf(env, rows).Ok? && Known(slot)
    ensures View(DocumentOf(env, rows).value, ChainName(env), slot) == Exported(env, rows, TokensOf(env).value, AssetsOf(env).value, slot)
  {
    hide View, DocumentOf, ChainName, TokensOf, AssetsOf, Known, Layered, Exported;
    ListsOk(env, rows);
    DocumentLayers(env, rows, slot);
    if slot.Setting? && slot.knob.Term? {
      TermLayers(env, rows, TokensOf(env).value, AssetsOf(env).value, slot.knob.stem, slot.knob.field);
    } else {
      OtherLayers(env, rows, TokensOf(env).value, AssetsOf(env).value, slot);
    }
  }

  lemma ListsOk(env: Env, rows: seq<MarketPair>)
    requires DocumentOf(env, rows).Ok?
    ensures TokensOf(env).Ok? && AssetsOf(env).Ok?
  {
  }

  lemma ListsApart(env: Env)
    requires TokensOf(env).Ok? && AssetsOf(env).Ok?
    ensures TokensApart(TokensOf(env).value) && AssetsApart(AssetsOf(env).value)
  {
    hide ParseToken, ParseAsset, Read;
    if Read(env, Id(EvmTokens)).Some? { TokensParsed(Split(Read(env, Id(EvmTokens)).value, ',')); }
    if Read(env, Id(AssetMarkets)).Some? { AssetsParsed(Split(Read(env, Id(AssetMarkets)).value, ',')); }
  }

  lemma PutMarketsTidy(doc: Document, env: Env, chainName: string, listed: seq<AssetToken>, all: set<Stem>, begun: set<Stem>)
    requires Tidy(doc, chainName, all, begun)
    ensures var next := PutMarkets(doc, env, listed);
            && Tidy(next, chainName, all, begun)
            && (HasChains(doc) ==> HasChains(next))
            && KeysAt(next, AssetsPath) == KeysAt(doc, AssetsPath)
  {
    hide Tidy, KeysAt, HasChains, SetAt, MarketsShown, Split, Raw, SchemaAt;
    match Raw(env, OfferMarkets)
    case None =>
    case Some(raw) =>
      var slot, node := Setting(OfferMarkets), Leaf(List(MarketsShown(listed, Split(raw, ','))));
      FixedKnown();
      MarketsPath(chainName);
      OpenSections(LnSend, chainName);
      InSections(slot, chainName);
      SetTidy(doc, chainName, all, begun, slot, node);
      SetKeys(doc, chainName, slot, node, AssetsPath);
      if HasChains(doc) { PutHasChains(doc, chainName, slot, node); }
  }

  /** An exported document names the listed tokens and assets in order, no chain but the environment's, and no corridor it does not serve. */
  lemma DocumentTidy(env: Env, rows: seq<MarketPair>)
    requires DocumentOf(env, rows).Ok?
    ensures var doc, tokens, listed := DocumentOf(env, rows).value, TokensOf(env).value, AssetsOf(env).value;
            && Tidy(doc, ChainName(env), StemsOf(tokens, listed), set stem | stem in FixedStems)
            && (tokens != [] ==> HasChains(doc))
            && KeysAt(doc, AssetsPath) == TokenLabels(tokens, ChainName(env)) + AssetLabels(listed)
  {
    hide Tidy, PutTokens, PutAssets, PutMarkets, PutAll, PutFixed, ChainName, Raw, TokensOf, AssetsOf, Settings, FixedStems, KeysAt, HasChains;
    var chainName, tokens, listed := ChainName(env), TokensOf(env).value, AssetsOf(env).value;
    var all, begun := StemsOf(tokens, listed), set stem | stem in FixedStems;
    ListsApart(env);
    ChainedTidy(env, all);
    PutTokensTidy(Chained(env), env, chainName, tokens, all, begun);
    var tokened := PutTokens(Chained(env), env, chainName, tokens);
    PutAssetsTidy(tokened, env, chainName, rows, listed, all, begun, TokenLabels(tokens, chainName));
    PutMarketsTidy(PutAssets(tokened, env, chainName, rows, listed).value, env, chainName, listed, all, begun);
  }
}
