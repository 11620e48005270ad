/** What flattening leaves each setting at, in terms of what the document holds. */
module ConfigReads {
  import opened Util
  import opened ConfigTrees
  import opened ConfigSchema
  import opened ConfigExport
  import opened ConfigViews
  import opened ConfigFlatten

  /** A value as the text of a setting. */
  function Written(knob: Knob, value: Option<Value>): Option<string> {
    if value.Some? then Some(Encode(KindOf(Setting(knob)), value.value)) else None
  }

  lemma {:induction false} SetPlainAt(knobs: Knobs, doc: Document, plain: seq<Knob>, knob: Knob)
    ensures Get(SetPlain(knobs, doc, plain), knob) ==
            if knob in plain && PlainValue(doc, knob).Some? then Written(knob, PlainValue(doc, knob)) else Get(knobs, knob)
  {
    hide PlainValue, Encode, KindOf;
    if plain != [] { SetPlainAt(knobs, doc, plain[..|plain| - 1], knob); }
  }

  lemma {:induction false} SetChainAt(knobs: Knobs, fields: Document, words: seq<Word>, knob: Knob)
    ensures Get(SetChain(knobs, fields, words), knob) ==
            if knob.Evm? && knob.field in words && ValueOf(Find(fields, Fixed(knob.field))).Some?
            then Written(knob, ValueOf(Find(fields, Fixed(knob.field)))) else Get(knobs, knob)
  {
    hide Encode, KindOf, Find;
    if words != [] { SetChainAt(knobs, fields, words[..|words| - 1], knob); }
  }

  lemma {:induction false} AllOffAt(knobs: Knobs, stems: seq<Stem>, knob: Knob)
    ensures Get(AllOff(knobs, stems), knob) ==
            if knob.Term? && knob.field == enabled && knob.stem in stems then Some("false") else Get(knobs, knob)
  {
    if stems != [] { AllOffAt(knobs, stems[..|stems| - 1], knob); }
  }

  // ---- the assets ----

  /** What an asset's entry says of one of its own settings. */
  function OwnSetting(asset: Labelled, knob: Knob): Option<string> {
    match knob
    case PriceFeed(symbol) => if symbol == asset.symbol && asset.entry.Erc20? then asset.entry.priceFeed else None
    case PricePath(symbol) => if symbol == asset.symbol && asset.entry.Erc20? then asset.entry.pricePath else None
    case Threshold(symbol) => if symbol == asset.symbol && asset.entry.ArkadeAsset? then asset.entry.threshold else None
    case _ => None
  }

  function AssetSetting(labelled: seq<Labelled>, knob: Knob): Option<string> {
    if labelled == [] then None
    else
      var own := OwnSetting(labelled[|labelled| - 1], knob);
      if own.Some? then own else AssetSetting(labelled[..|labelled| - 1], knob)
  }

  lemma SetAssetAt(knobs: Knobs, asset: Labelled, knob: Knob)
    ensures Get(SetAsset(knobs, asset), knob) == if OwnSetting(asset, knob).Some? then OwnSetting(asset, knob) else Get(knobs, knob)
  {
  }

  lemma {:induction false} SetAssetsAt(knobs: Knobs, labelled: seq<Labelled>, knob: Knob)
    ensures Get(SetAssets(knobs, labelled), knob) ==
            if AssetSetting(labelled, knob).Some? then AssetSetting(labelled, knob) else Get(knobs, knob)
  {
    hide SetAsset, OwnSetting;
    if labelled != [] {
      SetAssetsAt(knobs, labelled[..|labelled| - 1], knob);
      SetAssetAt(SetAssets(knobs, labelled[..|labelled| - 1]), labelled[|labelled| - 1], knob);
    }
  }

  ghost predicate LabelledApart(labelled: seq<Labelled>) {
    forall i, j :: 0 <= i < j < |labelled| ==> labelled[i].symbol != labelled[j].symbol || labelled[i].entry.Erc20? != labelled[j].entry.Erc20?
  }

  /** These entries are read as these assets. */
  ghost predicate ReadsAs(entry: Entry, asset: Labelled, chains: seq<Key>) {
    && asset.key == entry.key && entry.key.Label?
    && asset.symbol == Upper(entry.key.symbol) && IsSymbol(asset.symbol)
    && EntryOf(Entries(entry.node)) == Some(asset.entry)
    && (asset.entry.Erc20? ==> ChainNamed(asset.entry.on) in chains)
  }

  predicate IsBitcoin(asset: Labelled) {
    asset.symbol == "BTC" && asset.entry.ArkadeAsset?
  }

  lemma ReadAssetAt(earlier: seq<Labelled>, entry: Entry, asset: Labelled, chains: seq<Key>)
    requires ReadsAs(entry, asset, chains)
    requires forall a :: a in earlier ==> a.symbol != asset.symbol || a.entry.Erc20? != asset.entry.Erc20?
    ensures var r := ReadAsset(earlier, entry.key, Entries(entry.node), chains);
            if IsBitcoin(asset) then r.Err? else r == Ok(asset)
  {
    hide EntryOf, Upper, IsSymbol, Entries;
  }

  /** Assets are read as they are, unless one takes bitcoin's own symbol. */
  lemma {:induction false} ReadAssetsAt(entries: Document, labelled: seq<Labelled>, chains: seq<Key>)
    requires |entries| == |labelled| && LabelledApart(labelled)
    requires forall i :: 0 <= i < |entries| ==> ReadsAs(entries[i], labelled[i], chains)
    ensures if exists a :: a in labelled && IsBitcoin(a) then ReadAssets(entries, chains).Err? else ReadAssets(entries, chains) == Ok(labelled)
  {
    hide ReadAsset, ReadsAs, Entries, IsBitcoin;
    if entries != [] {
      var n := |entries| - 1;
      ReadAssetsAt(entries[..n], labelled[..n], chains);
      ReadAssetAt(labelled[..n], entries[n], labelled[n], chains);
      assert labelled == labelled[..n] + [labelled[n]];
    }
  }

  // ---- the corridors ----

  lemma {:induction false} SetTermsAt(knobs: Knobs, pair: Key, stem: Stem, terms: Document, knob: Knob)
    requires TidyTerms(Keys(terms), stem)
    ensures var r := SetTerms(knobs, pair, stem, terms);
            && r.Ok?
            && Get(r.value, knob) ==
               if knob.Term? && knob.stem == stem && ValueOf(Find(terms, Fixed(knob.field))).Some?
               then Written(knob, ValueOf(Find(terms, Fixed(knob.field)))) else Get(knobs, knob)
  {
    hide Encode, KindOf, FieldsOf, FamilyOf;
    if terms != [] {
      var n := |terms| - 1;
      var keys := Keys(terms);
      assert Keys(terms[..n]) == keys[..n] && terms == terms[..n] + [terms[n]];
      assert TidyTerms(keys[..n], stem);
      assert keys[n] in keys && IsField(stem, keys[n]);
      SetTermsAt(knobs, pair, stem, terms[..n], knob);
      if knob.Term? {
        FindInFirst(terms[..n], [terms[n]], Fixed(knob.field));
        FindKeys(terms[..n], Fixed(knob.field));
      }
      hide Find;
    }
  }

  /** Every entry is a corridor the document's assets serve, with its family's terms. */
  ghost predicate Readable(labelled: seq<Labelled>, entries: Document, chainName: string) {
    && Distinct(Keys(entries))
    && forall i :: 0 <= i < |entries| ==> ReadableEntry(labelled, entries[i], chainName)
  }

  ghost predicate ReadableEntry(labelled: seq<Labelled>, entry: Entry, chainName: string) {
    var stem := StemFor(labelled, entry.key);
    stem.Some? && entry.key == PairOf(stem.value, chainName) && TidyTerms(Keys(Entries(entry.node)), stem.value)
  }

  /** What a term comes to in a document that names its corridor. */
  function TermSetting(terms: Document, knob: Knob, before: Option<string>): Option<string>
    requires knob.Term?
  {
    var value := ValueOf(Find(terms, Fixed(knob.field)));
    if value.Some? then Written(knob, value) else if knob.field == enabled then Some("true") else before
  }

  lemma SetCorridorAt(knobs: Knobs, labelled: seq<Labelled>, entry: Entry, chainName: string, knob: Knob)
    requires ReadableEntry(labelled, entry, chainName)
    ensures var r := SetCorridor(knobs, labelled, entry.key, Entries(entry.node));
            && r.Ok?
            && Get(r.value, knob) ==
               if knob.Term? && PairOf(knob.stem, chainName) == entry.key then TermSetting(Entries(entry.node), knob, Get(knobs, knob))
               else Get(knobs, knob)
  {
    hide Find, Keys, Encode, KindOf, StemFor, TidyTerms, Entries;
    var stem := StemFor(labelled, entry.key).value;
    SetTermsAt(knobs[Term(stem, enabled) := "true"], entry.key, stem, Entries(entry.node), knob);
    PairStem(stem, chainName);
    if knob.Term? { PairStem(knob.stem, chainName); }
    hide PairOf, StemOf;
  }

  lemma {:induction false} SetCorridorsAt(knobs: Knobs, labelled: seq<Labelled>, entries: Document, chainName: string, knob: Knob)
    requires Readable(labelled, entries, chainName)
    ensures var r := SetCorridors(knobs, labelled, entries);
            && r.Ok?
            && Get(r.value, knob) ==
               if knob.Term? && PairOf(knob.stem, chainName) in Keys(entries)
               then TermSetting(Child(entries, PairOf(knob.stem, chainName)), knob, Get(knobs, knob))
               else Get(knobs, knob)
  {
    hide ReadableEntry, SetCorridor, PairOf, TermSetting;
    if entries != [] {
      var n := |entries| - 1;
      assert Keys(entries[..n]) == Keys(entries)[..n] && entries == entries[..n] + [entries[n]];
      SetCorridorsAt(knobs, labelled, entries[..n], chainName, knob);
      SetCorridorAt(SetCorridors(knobs, labelled, entries[..n]).value, labelled, entries[n], chainName, knob);
      if knob.Term? {
        var pair := PairOf(knob.stem, chainName);
        FindInFirst(entries[..n], [entries[n]], pair);
        FindKeys(entries[..n], pair);
        hide Find;
      }
    }
  }
}
