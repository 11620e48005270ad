/** What an exported document shows at each setting's place, and the keys of its open sections, step by step. */
module ConfigViews {
  import opened Util
  import opened ConfigTrees
  import opened ConfigSchema
  import opened ConfigExport

  function TermsAt(stem: Stem, chainName: string): seq<Key> {
    [Fixed(corridors), PairOf(stem, chainName)]
  }

  /** What the document holds at a slot. */
  function View(doc: Document, chainName: string, slot: Slot): Option<Node> {
    var path := SlotPath(slot, chainName);
    if path == [] then None else At(doc, path)
  }

  /** What the environment has for a setting, as the document holds it. */
  function Shown(knob: Knob, raw: Option<string>): Option<Node> {
    if raw.Some? then Some(Leaf(Decode(KindOf(Setting(knob)), raw.value))) else None
  }

  ghost predicate AllKnown(knobs: seq<Knob>) {
    forall knob :: knob in knobs ==> Known(Setting(knob))
  }

  lemma SetView(doc: Document, chainName: string, written: Slot, node: Node, slot: Slot)
    requires Known(written) && Known(slot)
    ensures SlotPath(written, chainName) != []
    ensures View(SetAt(doc, SlotPath(written, chainName), node), chainName, slot) ==
            if slot == written then Some(node) else View(doc, chainName, slot)
  {
    hide SlotPath, Known, SetAt, At, SchemaAt, KindOf;
    SlotPlaced(written, chainName);
    SlotPlaced(slot, chainName);
    if slot == written {
      PutGet(doc, SlotPath(written, chainName), node);
    } else {
      SlotsApart(written, slot, chainName);
      PutElsewhere(doc, SlotPath(written, chainName), node, SlotPath(slot, chainName));
    }
  }

  lemma PutView(doc: Document, chainName: string, knob: Knob, raw: Option<string>, slot: Slot)
    requires Known(Setting(knob)) && Known(slot)
    ensures View(Put(doc, chainName, knob, raw), chainName, slot) ==
            if slot == Setting(knob) && raw.Some? then Shown(knob, raw) else View(doc, chainName, slot)
  {
    hide SlotPath, Known, SetAt, View, SchemaAt, KindOf, Decode;
    SlotPlaced(Setting(knob), chainName);
    if raw.Some? {
      SetView(doc, chainName, Setting(knob), Leaf(Decode(KindOf(Setting(knob)), raw.value)), slot);
    }
  }

  lemma {:induction false} PutAllView(doc: Document, env: Env, chainName: string, knobs: seq<Knob>, slot: Slot)
    requires AllKnown(knobs) && Known(slot)
    ensures View(PutAll(doc, env, chainName, knobs), chainName, slot) ==
            if slot.Setting? && slot.knob in knobs && Raw(env, slot.knob).Some? then Shown(slot.knob, Raw(env, slot.knob))
            else View(doc, chainName, slot)
  {
    hide Known, View, Put, Shown, Raw;
    if knobs != [] {
      var n := |knobs| - 1;
      PutAllView(doc, env, chainName, knobs[..n], slot);
      PutView(PutAll(doc, env, chainName, knobs[..n]), chainName, knobs[n], Raw(env, knobs[n]), slot);
    }
  }

  // ---- keys of a section ----

  ghost predicate IsSection(path: seq<Key>) {
    SchemaAt(Section(Root), path).Some? && SchemaAt(Section(Root), path).value.Section?
  }

  lemma SetKeys(doc: Document, chainName: string, written: Slot, node: Node, section: seq<Key>)
    requires Known(written) && IsSection(section)
    ensures var path := SlotPath(written, chainName);
            path != [] &&
            KeysAt(SetAt(doc, path, node), section) ==
            if section < path then Append(KeysAt(doc, section), path[|section|]) else KeysAt(doc, section)
  {
    hide SlotPath, Known, SetAt, SchemaAt, KindOf, Append, Keys;
    SlotPlaced(written, chainName);
    SectionOrApart(section, written, chainName);
    var path := SlotPath(written, chainName);
    if section < path {
      assert path == section + path[|section|..];
      PutKeys(doc, section, path[|section|..], node);
    } else {
      SubElsewhere(doc, path, node, section);
    }
  }

  lemma PutKeysAt(doc: Document, chainName: string, knob: Knob, raw: Option<string>, section: seq<Key>)
    requires Known(Setting(knob)) && IsSection(section)
    ensures var path := SlotPath(Setting(knob), chainName);
            KeysAt(Put(doc, chainName, knob, raw), section) ==
            if raw.Some? && section < path then Append(KeysAt(doc, section), path[|section|]) else KeysAt(doc, section)
  {
    hide SlotPath, Known, SetAt, SchemaAt, KindOf, Append, KeysAt, IsSection, Decode;
    SlotPlaced(Setting(knob), chainName);
    if raw.Some? {
      SetKeys(doc, chainName, Setting(knob), Leaf(Decode(KindOf(Setting(knob)), raw.value)), section);
    }
  }

  // ---- which slots are in which section ----

  lemma OpenSections(stem: Stem, chainName: string)
    ensures IsSection(ChainsPath) && IsSection(AssetsPath) && IsSection(CorridorsPath) && IsSection(TermsAt(stem, chainName))
    ensures SchemaAt(Section(Root), TermsAt(stem, chainName)) == Some(Section(Terms(stem)))
  {
    hide SchemaAt, PairOf, WordField, StemOf, SectionPath;
    SectionFound(Chains);
    SectionFound(Assets);
    SectionFound(Corridors);
    RecordPaths();
    PairStem(stem, chainName);
    assert TermsAt(stem, chainName) == CorridorsPath + [PairOf(stem, chainName)];
    SchemaEnd(Section(Root), CorridorsPath, PairOf(stem, chainName));
  }

  lemma InSections(slot: Slot, chainName: string)
    requires Known(slot)
    ensures AssetsPath < SlotPath(slot, chainName) <==> slot.AssetAt?
    ensures CorridorsPath < SlotPath(slot, chainName) <==> slot.Setting? && slot.knob.Term?
    ensures ChainsPath < SlotPath(slot, chainName) <==> slot.Setting? && slot.knob.Evm?
  {
    hide Settings, EvmFields, TermFields, SectionPath, PairOf;
    RecordPaths();
    if slot.Setting? && !slot.knob.Evm? && !slot.knob.Term? {
      SettingsAreLeaves(slot.knob);
      PlainOutside(Assets, slot.knob, chainName);
      PlainOutside(Corridors, slot.knob, chainName);
      PlainOutside(Chains, slot.knob, chainName);
    } else {
      assert SlotPath(slot, chainName)[..1] == (if slot.AssetAt? then AssetsPath else if slot.knob.Term? then CorridorsPath else [Fixed(rails)]);
      assert AssetsPath[0] != CorridorsPath[0] && AssetsPath[0] != Fixed(rails) && CorridorsPath[0] != Fixed(rails);
    }
  }

  lemma InTerms(slot: Slot, stem: Stem, chainName: string)
    requires Known(slot)
    ensures TermsAt(stem, chainName) < SlotPath(slot, chainName) <==> slot.Setting? && slot.knob.Term? && slot.knob.stem == stem
  {
    hide Known, PairOf, Settings;
    InSections(slot, chainName);
    var path := SlotPath(slot, chainName);
    assert TermsAt(stem, chainName)[..1] == CorridorsPath;
    if slot.Setting? && slot.knob.Term? {
      PairStem(stem, chainName);
      PairStem(slot.knob.stem, chainName);
      hide StemOf;
      assert TermsAt(stem, chainName) < path <==> path[1] == PairOf(stem, chainName);
    }
  }

  // ---- opening a corridor, opening the chain ----

  lemma OpenPairView(doc: Document, stem: Stem, chainName: string, slot: Slot)
    requires Known(slot)
    ensures View(OpenPair(doc, stem, chainName), chainName, slot) ==
            if slot.Setting? && slot.knob.Term? && slot.knob.stem == stem then None else View(doc, chainName, slot)
  {
    hide Known, SetAt, SchemaAt, PairOf, KindOf, SectionPath, Settings;
    var section, path := TermsAt(stem, chainName), SlotPath(slot, chainName);
    OpenSections(stem, chainName);
    SectionOrApart(section, slot, chainName);
    InTerms(slot, stem, chainName);
    SlotPlaced(slot, chainName);
    if section < path {
      EmptyBelow(doc, section, path[2]);
      assert path == section + [path[2]];
    } else {
      PutElsewhere(doc, section, Block([]), path);
    }
  }

  /** A block written empty has nothing at any path through it. */
  lemma EmptyBelow(doc: Document, path: seq<Key>, key: Key)
    requires path != []
    ensures At(SetAt(doc, path, Block([])), path + [key]) == None
    ensures Sub(SetAt(doc, path, Block([])), path) == []
  {
    var n := |path| - 1;
    assert path == path[..n] + [path[n]];
    PutUnder(doc, path[..n], [path[n]], Block([]));
    var whole := SetAt(doc, path, Block([]));
    SubEnd(whole, path[..n], path[n]);
    ChildInsert(Sub(doc, path[..n]), path[n], Block([]), path[n]);
    assert (path + [key])[..|path|] == path;
  }

  lemma {:induction false} SubEnd(doc: Document, path: seq<Key>, key: Key)
    ensures Sub(doc, path + [key]) == Child(Sub(doc, path), key)
    decreases |path|
  {
    var whole := path + [key];
    if path == [] {
      assert whole[1..] == [];
    } else {
      assert whole[1..] == path[1..] + [key];
      SubEnd(Child(doc, path[0]), path[1..], key);
    }
  }

  lemma OpenPairKeys(doc: Document, stem: Stem, chainName: string)
    ensures var next := OpenPair(doc, stem, chainName);
            && KeysAt(next, CorridorsPath) == Append(KeysAt(doc, CorridorsPath), PairOf(stem, chainName))
            && KeysAt(next, AssetsPath) == KeysAt(doc, AssetsPath)
            && Sub(next, ChainsPath) == Sub(doc, ChainsPath) && At(next, ChainsPath) == At(doc, ChainsPath)
            && forall other :: KeysAt(next, TermsAt(other, chainName)) == if other == stem then [] else KeysAt(doc, TermsAt(other, chainName))
  {
    hide SetAt, Sub, Append, Keys, At;
    var path := TermsAt(stem, chainName);
    PutKeys(doc, CorridorsPath, [PairOf(stem, chainName)], Block([]));
    assert path == CorridorsPath + [PairOf(stem, chainName)];
    assert path[0] == Fixed(corridors) && AssetsPath[0] == Fixed(assets) && ChainsPath[0] == Fixed(rails);
    SubElsewhere(doc, path, Block([]), AssetsPath);
    SubElsewhere(doc, path, Block([]), ChainsPath);
    PutElsewhere(doc, path, Block([]), ChainsPath);
    EmptyBelow(doc, path, Fixed(enabled));
    NoKeys();
    forall other
      ensures KeysAt(SetAt(doc, path, Block([])), TermsAt(other, chainName)) == if other == stem then [] else KeysAt(doc, TermsAt(other, chainName))
    {
      if other != stem {
        PairStem(stem, chainName);
        PairStem(other, chainName);
        hide PairOf, StemOf;
        assert path[1] != TermsAt(other, chainName)[1];
        SubElsewhere(doc, path, Block([]), TermsAt(other, chainName));
      }
    }
  }

  lemma NoKeys()
    ensures Keys([]) == []
  {
  }

  predicate HasChains(doc: Document) {
    At(doc, ChainsPath).Some?
  }

  lemma NoChains(doc: Document)
    requires !HasChains(doc)
    ensures Sub(doc, ChainsPath) == [] && KeysAt(doc, ChainsPath) == []
  {
    assert ChainsPath == [Fixed(rails)] + [Fixed(evm)];
    SubEnd(doc, [Fixed(rails)], Fixed(evm));
    assert ChainsPath[..1] == [Fixed(rails)];
    NoKeys();
  }

  /** Writing below a key leaves something at it. */
  lemma PutLeaves(doc: Document, path: seq<Key>, below: seq<Key>, node: Node)
    requires path != [] && below != []
    ensures At(SetAt(doc, path + below, node), path).Some?
  {
    var n := |path| - 1;
    var rest := [path[n]] + below;
    assert path + below == path[..n] + rest && rest[1..] == below;
    PutUnder(doc, path[..n], rest, node);
    InsertFind(Sub(doc, path[..n]), path[n], Block(SetAt(Child(Sub(doc, path[..n]), path[n]), below, node)), path[n]);
  }

  lemma OpenChainView(doc: Document, chainName: string, slot: Slot)
    requires Known(slot)
    ensures View(OpenChain(doc, chainName), chainName, slot) == View(doc, chainName, slot)
  {
    if !HasChains(doc) {
      hide Known, SetAt, SchemaAt, KindOf, SectionPath, Settings;
      var section, path := [Fixed(rails), Fixed(evm), ChainNamed(chainName)], SlotPath(slot, chainName);
      InSections(slot, chainName);
      SlotPlaced(slot, chainName);
      OpenSections(LnSend, chainName);
      SectionOrApart(ChainsPath, slot, chainName);
      if slot.Setting? && slot.knob.Evm? {
        assert path == section + [path[3]];
        assert path == ChainsPath + [ChainNamed(chainName), path[3]];
        EmptyBelow(doc, section, path[3]);
        NoChains(doc);
        assert path[..3] == section && section == ChainsPath + [ChainNamed(chainName)];
        SubEnd(doc, ChainsPath, ChainNamed(chainName));
      } else {
        assert section == ChainsPath + [ChainNamed(chainName)];
        ApartBelow(ChainsPath, path, [ChainNamed(chainName)]);
        PutElsewhere(doc, section, Block([]), path);
      }
    }
  }

  lemma ApartBelow(p: seq<Key>, q: seq<Key>, below: seq<Key>)
    requires Apart(p, q)
    ensures Apart(p + below, q)
  {
  }

  lemma OpenChainKeys(doc: Document, chainName: string)
    ensures var next := OpenChain(doc, chainName);
            && HasChains(next)
            && KeysAt(next, ChainsPath) == (if HasChains(doc) then KeysAt(doc, ChainsPath) else [ChainNamed(chainName)])
            && KeysAt(next, AssetsPath) == KeysAt(doc, AssetsPath)
            && KeysAt(next, CorridorsPath) == KeysAt(doc, CorridorsPath)
            && forall stem :: KeysAt(next, TermsAt(stem, chainName)) == KeysAt(doc, TermsAt(stem, chainName))
  {
    if !HasChains(doc) {
      hide SetAt, Sub, Keys, At;
      var path := [Fixed(rails), Fixed(evm), ChainNamed(chainName)];
      NoChains(doc);
      assert path == ChainsPath + [ChainNamed(chainName)];
      PutKeys(doc, ChainsPath, [ChainNamed(chainName)], Block([]));
      PutLeaves(doc, ChainsPath, [ChainNamed(chainName)], Block([]));
      assert path[0] == Fixed(rails) && AssetsPath[0] == Fixed(assets) && CorridorsPath[0] == Fixed(corridors);
      SubElsewhere(doc, path, Block([]), AssetsPath);
      SubElsewhere(doc, path, Block([]), CorridorsPath);
      forall stem ensures KeysAt(SetAt(doc, path, Block([])), TermsAt(stem, chainName)) == KeysAt(doc, TermsAt(stem, chainName)) {
        assert TermsAt(stem, chainName)[0] == Fixed(corridors);
        SubElsewhere(doc, path, Block([]), TermsAt(stem, chainName));
      }
    }
  }

  // ---- a tidy document ----

  /** The only chain is the environment's; each corridor is one of `stems`, once, those in `begun` among them; its terms are its family's, once each. */
  ghost predicate Tidy(doc: Document, chainName: string, stems: set<Stem>, begun: set<Stem>) {
    && KeysAt(doc, ChainsPath) == (if HasChains(doc) then [ChainNamed(chainName)] else [])
    && Distinct(KeysAt(doc, CorridorsPath))
    && (forall pair :: pair in KeysAt(doc, CorridorsPath) ==> exists stem :: stem in stems && pair == PairOf(stem, chainName))
    && (forall stem :: stem in begun ==> PairOf(stem, chainName) in KeysAt(doc, CorridorsPath))
    && (forall stem :: TidyTerms(KeysAt(doc, TermsAt(stem, chainName)), stem))
  }

  ghost predicate TidyTerms(keys: seq<Key>, stem: Stem) {
    Distinct(keys) && forall key :: key in keys ==> IsField(stem, key)
  }

  /** A write a tidy document stays tidy under. */
  ghost predicate Fits(slot: Slot, stems: set<Stem>) {
    Known(slot) && (slot.Setting? && slot.knob.Term? ==> slot.knob.stem in stems && slot.knob.field in FieldsOf(FamilyOf(slot.knob.stem)))
  }

  lemma SetTidy(doc: Document, chainName: string, stems: set<Stem>, begun: set<Stem>, slot: Slot, node: Node)
    requires Tidy(doc, chainName, stems, begun) && Fits(slot, stems)
    ensures SlotPath(slot, chainName) != []
    ensures Tidy(SetAt(doc, SlotPath(slot, chainName), node), chainName, stems, begun)
  {
    hide SetAt, SchemaAt, Sub, Keys, KindOf, Known, SectionPath, PairOf, Settings, FieldsOf, FamilyOf, At;
    var path := SlotPath(slot, chainName);
    InSections(slot, chainName);
    OpenSections(LnSend, chainName);
    SetKeys(doc, chainName, slot, node, ChainsPath);
    SetKeys(doc, chainName, slot, node, CorridorsPath);
    if ChainsPath < path {
      assert path == ChainsPath + path[2..];
      PutLeaves(doc, ChainsPath, path[2..], node);
    } else {
      SectionOrApart(ChainsPath, slot, chainName);
      PutElsewhere(doc, path, node, ChainsPath);
    }
    forall stem ensures TidyTerms(KeysAt(SetAt(doc, path, node), TermsAt(stem, chainName)), stem) {
      OpenSections(stem, chainName);
      InTerms(slot, stem, chainName);
      SetKeys(doc, chainName, slot, node, TermsAt(stem, chainName));
      assert TidyTerms(KeysAt(doc, TermsAt(stem, chainName)), stem);
    }
  }

  lemma PutTidy(doc: Document, chainName: string, stems: set<Stem>, begun: set<Stem>, knob: Knob, raw: Option<string>)
    requires Tidy(doc, chainName, stems, begun) && Fits(Setting(knob), stems)
    ensures Tidy(Put(doc, chainName, knob, raw), chainName, stems, begun)
  {
    hide SetAt, Tidy, SlotPath, KindAt, Decode;
    if raw.Some? {
      SetTidy(doc, chainName, stems, begun, Setting(knob), Leaf(Decode(KindAt(SlotPath(Setting(knob), chainName)), raw.value)));
    }
  }

  lemma {:induction false} PutAllTidy(doc: Document, env: Env, chainName: string, stems: set<Stem>, begun: set<Stem>, knobs: seq<Knob>)
    requires Tidy(doc, chainName, stems, begun) && forall knob :: knob in knobs ==> Fits(Setting(knob), stems)
    ensures Tidy(PutAll(doc, env, chainName, knobs), chainName, stems, begun)
  {
    hide Tidy, Put, Fits, Raw;
    if knobs != [] {
      var n := |knobs| - 1;
      PutAllTidy(doc, env, chainName, stems, begun, knobs[..n]);
      PutTidy(PutAll(doc, env, chainName, knobs[..n]), chainName, stems, begun, knobs[n], Raw(env, knobs[n]));
    }
  }

  lemma OpenPairTidy(doc: Document, chainName: string, stems: set<Stem>, begun: set<Stem>, stem: Stem)
    requires Tidy(doc, chainName, stems, begun) && stem in stems
    ensures Tidy(OpenPair(doc, stem, chainName), chainName, stems, begun + {stem})
  {
    hide OpenPair, PairOf, FieldsOf, FamilyOf, Sub, Keys, At;
    OpenPairKeys(doc, stem, chainName);
    forall other ensures TidyTerms(KeysAt(OpenPair(doc, stem, chainName), TermsAt(other, chainName)), other) {
      assert TidyTerms(KeysAt(doc, TermsAt(other, chainName)), other);
    }
  }

  lemma OpenChainTidy(doc: Document, chainName: string, stems: set<Stem>, begun: set<Stem>)
    requires Tidy(doc, chainName, stems, begun)
    ensures Tidy(OpenChain(doc, chainName), chainName, stems, begun)
  {
    hide OpenChain, PairOf, FieldsOf, FamilyOf, Sub, Keys, At;
    OpenChainKeys(doc, chainName);
    forall stem ensures TidyTerms(KeysAt(OpenChain(doc, chainName), TermsAt(stem, chainName)), stem) {
      assert TidyTerms(KeysAt(doc, TermsAt(stem, chainName)), stem);
    }
  }

  lemma PutAssetKeys(doc: Document, chainName: string, knob: Knob, raw: Option<string>)
    requires Known(Setting(knob))
    ensures KeysAt(Put(doc, chainName, knob, raw), AssetsPath) == KeysAt(doc, AssetsPath)
  {
    hide Known, SlotPath, Put, KeysAt, SchemaAt;
    InSections(Setting(knob), chainName);
    OpenSections(LnSend, chainName);
    PutKeysAt(doc, chainName, knob, raw, AssetsPath);
  }

  lemma {:induction false} PutAllAssetKeys(doc: Document, env: Env, chainName: string, knobs: seq<Knob>)
    requires AllKnown(knobs)
    ensures KeysAt(PutAll(doc, env, chainName, knobs), AssetsPath) == KeysAt(doc, AssetsPath)
  {
    hide Known, Put, KeysAt, Raw;
    if knobs != [] {
      var n := |knobs| - 1;
      PutAllAssetKeys(doc, env, chainName, knobs[..n]);
      PutAssetKeys(PutAll(doc, env, chainName, knobs[..n]), chainName, knobs[n], Raw(env, knobs[n]));
    }
  }

  lemma PutHasChains(doc: Document, chainName: string, slot: Slot, node: Node)
    requires Known(slot) && HasChains(doc)
    ensures SlotPath(slot, chainName) != [] && HasChains(SetAt(doc, SlotPath(slot, chainName), node))
  {
    hide SetAt, SchemaAt, Sub, KindOf, Known, SlotPath, At;
    var path := SlotPath(slot, chainName);
    SlotPlaced(slot, chainName);
    OpenSections(LnSend, chainName);
    SectionOrApart(ChainsPath, slot, chainName);
    if ChainsPath < path {
      assert path == ChainsPath + path[2..];
      PutLeaves(doc, ChainsPath, path[2..], node);
    } else {
      PutElsewhere(doc, path, node, ChainsPath);
    }
  }

  lemma {:induction false} PutAllHasChains(doc: Document, env: Env, chainName: string, knobs: seq<Knob>)
    requires AllKnown(knobs) && HasChains(doc)
    ensures HasChains(PutAll(doc, env, chainName, knobs))
  {
    hide Known, HasChains, Raw, SlotPath, Decode, SetAt;
    if knobs != [] {
      var n := |knobs| - 1;
      PutAllHasChains(doc, env, chainName, knobs[..n]);
      var path := SlotPath(Setting(knobs[n]), chainName);
      if Raw(env, knobs[n]).Some? {
        PutHasChains(PutAll(doc, env, chainName, knobs[..n]), chainName, Setting(knobs[n]), Leaf(Decode(KindAt(path), Raw(env, knobs[n]).value)));
      }
    }
  }
}
