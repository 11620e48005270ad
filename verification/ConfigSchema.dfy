/**
 * The shape of the configuration document, the setting each of its leaves holds, and
 * where each setting is. A setting at a fixed path is named by its place, one built from
 * an asset's symbol by a constructor, where the source gives each an id of its own.
 */
module ConfigSchema {
  import opened Util
  import opened ConfigTrees

  /** What a corridor's setting ids start with. */
  datatype Stem =
    LnSend | LnReceive | OnchainSend
    | EvmSend(symbol: string) | EvmReceive(symbol: string)
    | FromBtc(symbol: string) | ToBtc(symbol: string)

  /** The sections of the document. */
  datatype SectionName =
    Root | Rails | ArkadeRail | LightningRail | Lnd | Fake | OnchainRail | Chains | Chain | Assets | Limits | Corridors
    | Terms(stem: Stem) | Offers | Relay | Storage | Http | Admin | SentrySection | Notify | Diagnostics

  /** A setting. */
  datatype Knob =
    Plain(section: SectionName, word: Word) | Evm(field: Word) | Term(stem: Stem, field: Word)
    | PriceFeed(symbol: string) | PricePath(symbol: string) | Threshold(symbol: string)
    | EvmTokens | AssetMarkets

  const OfferMarkets: Knob := Plain(Offers, markets)

  /** What the document holds at one place: a setting, or an asset's whole entry. */
  datatype Slot = Setting(knob: Knob) | AssetAt(asset: Key)

  const ArkadeSettings: seq<Knob> := [
    Plain(Root, network), Plain(Root, name), Plain(ArkadeRail, mnemonic), Plain(ArkadeRail, operatorUrl),
    Plain(ArkadeRail, emulatorUrl), Plain(ArkadeRail, esploraUrl), Plain(ArkadeRail, unilateralExitDelay),
    Plain(ArkadeRail, covclaimdUrl), Plain(ArkadeRail, poolAutoMint), Plain(ArkadeRail, contractRetentionDays)]

  const LightningSettings: seq<Knob> := [
    Plain(LightningRail, backend), Plain(Lnd, socket), Plain(Lnd, cert), Plain(Lnd, certPath),
    Plain(Lnd, macaroon), Plain(Lnd, macaroonPath), Plain(Fake, statePath),
    Plain(LightningRail, lockupTimeoutSeconds), Plain(LightningRail, sweepConcurrency),
    Plain(LightningRail, sendHintScidDenylist), Plain(LightningRail, receiveAcceptUnilateralGap)]

  const LimitSettings: seq<Knob> := [
    Plain(OnchainRail, esploraUrl), Plain(OnchainRail, chainTipEsploraUrl), Plain(OnchainRail, feeRateRefreshMs),
    Plain(OnchainRail, feeRateStaleMs), Plain(Limits, maxSwapSats), Plain(Limits, maxExposedSats),
    Plain(Limits, approvalThresholdSats)]

  const OfferSettings: seq<Knob> := [
    Plain(Offers, minFillAmount), Plain(Offers, maxFillAmount), Plain(Offers, chargeCarrier),
    Plain(Offers, carrierPricing), Plain(Offers, quoteValiditySeconds), Plain(Relay, url), Plain(Relay, protocol),
    Plain(Relay, healthPath), Plain(Relay, openRfqMaxBidsPerMinute), Plain(Relay, adPublish),
    Plain(Relay, cardRelays)]

  const HostSettings: seq<Knob> := [
    Plain(Storage, dir), Plain(Storage, swapDb), Plain(Storage, walletDb), Plain(Http, host), Plain(Http, port),
    Plain(Admin, host), Plain(Admin, allowedHosts), Plain(Admin, port), Plain(Admin, restartEnabled)]

  const ReportSettings: seq<Knob> := [
    Plain(SentrySection, dsn), Plain(SentrySection, environment), Plain(SentrySection, release),
    Plain(Notify, telegramBotToken), Plain(Notify, telegramChatId), Plain(Notify, slackWebhookUrl),
    Plain(Notify, balanceReportIntervalMinutes), Plain(Diagnostics, latency)]

  /** The settings at fixed paths, in the order they are read. */
  const Settings: seq<Knob> := ArkadeSettings + LightningSettings + LimitSettings + OfferSettings + HostSettings + ReportSettings

  const Numbers: seq<Knob> := [
    Plain(ArkadeRail, unilateralExitDelay), Plain(ArkadeRail, contractRetentionDays),
    Plain(LightningRail, lockupTimeoutSeconds), Plain(LightningRail, sweepConcurrency),
    Plain(OnchainRail, feeRateRefreshMs), Plain(OnchainRail, feeRateStaleMs), Plain(Limits, maxSwapSats),
    Plain(Limits, maxExposedSats), Plain(Limits, approvalThresholdSats), Plain(Offers, quoteValiditySeconds),
    Plain(Relay, openRfqMaxBidsPerMinute), Plain(Http, port), Plain(Admin, port),
    Plain(Notify, balanceReportIntervalMinutes)]

  const Flags: seq<Knob> := [
    Plain(ArkadeRail, poolAutoMint), Plain(LightningRail, receiveAcceptUnilateralGap),
    Plain(Offers, chargeCarrier), Plain(Offers, carrierPricing), Plain(Admin, restartEnabled)]

  const Lists: seq<Knob> := [
    Plain(LightningRail, sendHintScidDenylist), Plain(Relay, cardRelays), Plain(Admin, allowedHosts), OfferMarkets]

  /** The type of a setting at a fixed path; `diagnostics.latency` is written its own way. */
  function PlainKind(knob: Knob): Kind {
    if knob in Numbers then NumberKind
    else if knob in Flags then FlagKind
    else if knob in Lists then ListKind
    else if knob == Plain(Diagnostics, latency) then OnOff
    else TextKind
  }

  const EvmFields: seq<Word> := [
    chainId, rpcUrl, htlcAddress, privateKey, minConfirmations, minAgeSeconds, fastestSecondsPerBlock,
    slowestSecondsPerBlock, timelockFastestSecondsPerBlock, timelockSlowestSecondsPerBlock, gasLimit,
    maxFeePerGasCeiling, feeHeadroomSeconds, orderMarginSeconds, quoteValiditySeconds, logScanRange,
    directClaimsOnly]

  datatype Family = LightningFamily | OnchainSendFamily | Erc20Family | ArkadeAssetFamily

  const Common: seq<Word> := [enabled, minSats, maxSats, feeBps, feeFlatSats]

  function FieldsOf(family: Family): seq<Word> {
    match family
    case LightningFamily => Common
    case OnchainSendFamily => Common + [feeCapSats, feeMinSats]
    case Erc20Family => Common + [minUnits, maxUnits]
    case ArkadeAssetFamily => [enabled]
  }

  function FamilyOf(stem: Stem): Family {
    match stem
    case LnSend => LightningFamily
    case LnReceive => LightningFamily
    case OnchainSend => OnchainSendFamily
    case EvmSend(_) => Erc20Family
    case EvmReceive(_) => Erc20Family
    case FromBtc(_) => ArkadeAssetFamily
    case ToBtc(_) => ArkadeAssetFamily
  }

  /** The three corridors every build registers. */
  const FixedStems: seq<Stem> := [LnSend, LnReceive, OnchainSend]

  function PairOf(stem: Stem, chainName: string): Key {
    match stem
    case LnSend => Pair(ArkadeBtc, LightningBtc)
    case LnReceive => Pair(LightningBtc, ArkadeBtc)
    case OnchainSend => Pair(ArkadeBtc, OnchainBtc)
    case EvmSend(symbol) => Pair(ArkadeBtc, Asset(symbol, Some(chainName)))
    case EvmReceive(symbol) => Pair(Asset(symbol, Some(chainName)), ArkadeBtc)
    case FromBtc(symbol) => Pair(ArkadeBtc, Asset(symbol, None))
    case ToBtc(symbol) => Pair(Asset(symbol, None), ArkadeBtc)
  }

  /** A key of one of a corridor's terms. */
  predicate IsField(stem: Stem, key: Key) {
    key.Fixed? && key.word in FieldsOf(FamilyOf(stem))
  }

  // ---- the document's shape ----

  datatype Schema = Holds(slot: Slot, kind: Kind) | Section(name: SectionName)

  /** The section under a fixed key of another. */
  function SubSection(section: SectionName, word: Word): Option<SectionName> {
    match section
    case Root => RootSection(word)
    case Rails => RailSection(word)
    case LightningRail => if word == lnd then Some(Lnd) else if word == fake then Some(Fake) else None
    case _ => None
  }

  function RootSection(word: Word): Option<SectionName> {
    match word
    case rails => Some(Rails)
    case assets => Some(Assets)
    case limits => Some(Limits)
    case corridors => Some(Corridors)
    case offers => Some(Offers)
    case relay => Some(Relay)
    case storage => Some(Storage)
    case http => Some(Http)
    case admin => Some(Admin)
    case sentry => Some(SentrySection)
    case notify => Some(Notify)
    case diagnostics => Some(Diagnostics)
    case _ => None
  }

  function RailSection(word: Word): Option<SectionName> {
    match word
    case arkade => Some(ArkadeRail)
    case lightning => Some(LightningRail)
    case onchain => Some(OnchainRail)
    case evm => Some(Chains)
    case _ => None
  }

  /** What a section of the shape has under a fixed key. */
  function WordField(section: SectionName, word: Word): Option<Schema> {
    if SubSection(section, word).Some? then Some(Section(SubSection(section, word).value))
    else if section == Chain then
      if word in EvmFields then Some(Holds(Setting(Evm(word)), ChainFieldKind(word))) else None
    else if section.Terms? then
      if word in TermFields then Some(Holds(Setting(Term(section.stem, word)), TermKind(word))) else None
    else
      var knob := Plain(section, word);
      if knob in Settings || knob == OfferMarkets then Some(Holds(Setting(knob), PlainKind(knob))) else None
  }

  function ChainFieldKind(field: Word): Kind {
    match field
    case rpcUrl => TextKind
    case htlcAddress => TextKind
    case privateKey => TextKind
    case gasLimit => TextKind
    case maxFeePerGasCeiling => TextKind
    case directClaimsOnly => FlagKind
    case _ => NumberKind
  }

  function TermKind(field: Word): Kind {
    match field
    case enabled => FlagKind
    case minUnits => TextKind
    case maxUnits => TextKind
    case _ => NumberKind
  }

  const TermFields: seq<Word> := Common + [feeCapSats, feeMinSats, minUnits, maxUnits]

  /** The corridor a pair names; an asset labelled with its chain is an ERC-20 one. */
  function StemOf(pair: Key): Option<Stem> {
    match pair
    case Pair(ArkadeBtc, LightningBtc) => Some(LnSend)
    case Pair(LightningBtc, ArkadeBtc) => Some(LnReceive)
    case Pair(ArkadeBtc, OnchainBtc) => Some(OnchainSend)
    case Pair(ArkadeBtc, Asset(symbol, on)) => Some(if on.Some? then EvmSend(symbol) else FromBtc(symbol))
    case Pair(Asset(symbol, on), ArkadeBtc) => Some(if on.Some? then EvmReceive(symbol) else ToBtc(symbol))
    case _ => None
  }

  /** What the shape has under `key`. */
  function Below(schema: Schema, key: Key): Option<Schema> {
    match schema
    case Holds(_, _) => None
    case Section(section) =>
      match key
      case Fixed(word) => WordField(section, word)
      case ChainNamed(_) => if section == Chains then Some(Section(Chain)) else None
      case Label(_, _) => if section == Assets then Some(Holds(AssetAt(key), TextKind)) else None
      case Pair(_, _) => if section == Corridors && StemOf(key).Some? then Some(Section(Terms(StemOf(key).value))) else None
  }

  function SchemaAt(schema: Schema, path: seq<Key>): Option<Schema>
    decreases |path|
  {
    if path == [] then Some(schema)
    else
      match Below(schema, path[0])
      case None => None
      case Some(below) => SchemaAt(below, path[1..])
  }

  // ---- where each setting is ----

  datatype Place = Field(section: SectionName, word: Word) | Nowhere

  /** The section a section is in, and its key there. */
  function SectionPlace(section: SectionName): Place {
    match section
    case Rails => Field(Root, rails)
    case ArkadeRail => Field(Rails, arkade)
    case LightningRail => Field(Rails, lightning)
    case Lnd => Field(LightningRail, lnd)
    case Fake => Field(LightningRail, fake)
    case OnchainRail => Field(Rails, onchain)
    case Chains => Field(Rails, evm)
    case Assets => Field(Root, assets)
    case Limits => Field(Root, limits)
    case Corridors => Field(Root, corridors)
    case Offers => Field(Root, offers)
    case Relay => Field(Root, relay)
    case Storage => Field(Root, storage)
    case Http => Field(Root, http)
    case Admin => Field(Root, admin)
    case SentrySection => Field(Root, sentry)
    case Notify => Field(Root, notify)
    case Diagnostics => Field(Root, diagnostics)
    case _ => Nowhere
  }

  function Depth(section: SectionName): nat {
    match section
    case Root => 0
    case ArkadeRail => 2
    case LightningRail => 2
    case OnchainRail => 2
    case Chains => 2
    case Lnd => 3
    case Fake => 3
    case _ => 1
  }

  lemma SectionDepth(section: SectionName)
    ensures SectionPlace(section).Field? ==> Depth(SectionPlace(section).section) < Depth(section)
  {
  }

  /** A section every document has room for at one place. */
  predicate IsFixed(section: SectionName) {
    section != Chain && !section.Terms?
  }

  /** A section whose keys are not fixed. */
  predicate IsRecord(section: SectionName) {
    section == Chains || section == Assets || section == Corridors
  }

  function SectionPath(section: SectionName): seq<Key>
    decreases Depth(section)
  {
    SectionDepth(section);
    match SectionPlace(section)
    case Nowhere => []
    case Field(outer, word) => SectionPath(outer) + [Fixed(word)]
  }

  /** The sections whose keys are not fixed. */
  const ChainsPath: seq<Key> := [Fixed(rails), Fixed(evm)]
  const AssetsPath: seq<Key> := [Fixed(assets)]
  const CorridorsPath: seq<Key> := [Fixed(corridors)]

  /** Where a slot is in a document whose one chain has the given name. */
  function SlotPath(slot: Slot, chainName: string): seq<Key> {
    match slot
    case AssetAt(asset) => [Fixed(assets), asset]
    case Setting(Evm(field)) => [Fixed(rails), Fixed(evm), ChainNamed(chainName), Fixed(field)]
    case Setting(Term(stem, field)) => [Fixed(corridors), PairOf(stem, chainName), Fixed(field)]
    case Setting(Plain(section, word)) => SectionPath(section) + [Fixed(word)]
    case Setting(_) => []
  }

  /** The slots that have a place of their own. */
  predicate Known(slot: Slot) {
    match slot
    case AssetAt(asset) => asset.Label?
    case Setting(Evm(field)) => field in EvmFields
    case Setting(Term(_, field)) => field in TermFields
    case Setting(knob) => knob in Settings || knob == OfferMarkets
  }

  function KindAt(path: seq<Key>): Kind {
    match SchemaAt(Section(Root), path)
    case Some(Holds(_, kind)) => kind
    case _ => TextKind
  }

  function Under(schema: Option<Schema>, key: Key): Option<Schema> {
    if schema.None? then None else Below(schema.value, key)
  }

  lemma {:induction false} SchemaEnd(schema: Schema, path: seq<Key>, key: Key)
    ensures SchemaAt(schema, path + [key]) == Under(SchemaAt(schema, path), key)
    decreases |path|
  {
    hide Below;
    var whole := path + [key];
    if path == [] {
      assert whole[1..] == [];
    } else {
      assert whole[1..] == path[1..] + [key];
      if Below(schema, path[0]).Some? { SchemaEnd(Below(schema, path[0]).value, path[1..], key); }
    }
  }

  /** A section's place is where the shape has it. */
  lemma {:induction false} SectionFound(section: SectionName)
    requires IsFixed(section)
    ensures SchemaAt(Section(Root), SectionPath(section)) == Some(Section(section))
    decreases Depth(section)
  {
    if section != Root {
      SectionDepth(section);
      SectionHeld(section);
      var outer, word := SectionPlace(section).section, SectionPlace(section).word;
      SectionFound(outer);
      hide WordField, SectionPlace;
      SchemaEnd(Section(Root), SectionPath(outer), Fixed(word));
    }
  }

  ghost predicate IsSubSection(section: SectionName) {
    var place := SectionPlace(section);
    place.Field? && IsFixed(place.section) && SubSection(place.section, place.word) == Some(section)
  }

  lemma RootSectionsPlaced(section: SectionName)
    requires SectionPlace(section).Field? && SectionPlace(section).section == Root
    ensures IsSubSection(section)
  {
  }

  lemma SubSectionPlaced(section: SectionName)
    requires IsFixed(section) && section != Root
    ensures IsSubSection(section)
  {
    if SectionPlace(section) != Nowhere && SectionPlace(section).section == Root {
      hide IsSubSection;
      RootSectionsPlaced(section);
    } else {
      hide RootSection;
    }
  }

  lemma SectionHeld(section: SectionName)
    requires IsFixed(section) && section != Root
    ensures var place := SectionPlace(section);
            place.Field? && IsFixed(place.section) && WordField(place.section, place.word) == Some(Section(section))
  {
    SubSectionPlaced(section);
    hide SectionPlace, SubSection;
  }

  ghost predicate IsLeaf(knob: Knob) {
    knob.Plain? && IsFixed(knob.section) && !IsRecord(knob.section) && SubSection(knob.section, knob.word).None?
  }

  lemma RailLeaves(knob: Knob)
    requires knob in ArkadeSettings || knob in LightningSettings
    ensures IsLeaf(knob)
  {
  }

  lemma TradeLeaves(knob: Knob)
    requires knob in LimitSettings || knob in OfferSettings || knob == OfferMarkets
    ensures IsLeaf(knob)
  {
  }

  lemma HostLeaves(knob: Knob)
    requires knob in HostSettings || knob in ReportSettings
    ensures IsLeaf(knob)
  {
  }

  /** No key holds both a section and a setting. */
  lemma SettingsAreLeaves(knob: Knob)
    requires knob in Settings || knob == OfferMarkets
    ensures IsLeaf(knob)
  {
    hide IsLeaf;
    if knob in ArkadeSettings || knob in LightningSettings {
      RailLeaves(knob);
    } else if knob in HostSettings || knob in ReportSettings {
      HostLeaves(knob);
    } else {
      TradeLeaves(knob);
    }
  }

  /** Where the sections are whose keys are not fixed. */
  lemma RecordPaths()
    ensures SectionPath(Assets) == [Fixed(assets)]
    ensures SectionPath(Corridors) == [Fixed(corridors)]
    ensures SectionPath(Chains) == [Fixed(rails), Fixed(evm)]
  {
    assert SectionPath(Rails) == [Fixed(rails)];
  }

  lemma AssetPlaced(asset: Key, chainName: string)
    requires asset.Label?
    ensures SchemaAt(Section(Root), SlotPath(AssetAt(asset), chainName)) == Some(Holds(AssetAt(asset), TextKind))
  {
    hide WordField, SchemaAt, SectionPath, SectionPlace;
    SectionFound(Assets);
    RecordPaths();
    SchemaEnd(Section(Root), [Fixed(assets)], asset);
    assert [Fixed(assets)] + [asset] == [Fixed(assets), asset];
  }

  lemma ChainHeld(field: Word)
    requires field in EvmFields
    ensures WordField(Chain, field) == Some(Holds(Setting(Evm(field)), ChainFieldKind(field)))
  {
    hide EvmFields, ChainFieldKind;
  }

  lemma TermHeld(stem: Stem, field: Word)
    requires field in TermFields
    ensures WordField(Terms(stem), field) == Some(Holds(Setting(Term(stem, field)), TermKind(field)))
  {
    hide TermFields, TermKind;
  }

  lemma PairStem(stem: Stem, chainName: string)
    ensures StemOf(PairOf(stem, chainName)) == Some(stem) && PairOf(stem, chainName).Pair?
  {
  }

  lemma EvmPlaced(field: Word, chainName: string)
    requires field in EvmFields
    ensures SchemaAt(Section(Root), SlotPath(Setting(Evm(field)), chainName)) == Some(Holds(Setting(Evm(field)), ChainFieldKind(field)))
  {
    hide WordField, SchemaAt, ChainFieldKind, EvmFields, SectionPath, SectionPlace;
    SectionFound(Chains);
    RecordPaths();
    var path := [Fixed(rails), Fixed(evm)];
    ChainHeld(field);
    SchemaEnd(Section(Root), path, ChainNamed(chainName));
    var longer := path + [ChainNamed(chainName)];
    SchemaEnd(Section(Root), longer, Fixed(field));
    assert longer + [Fixed(field)] == [Fixed(rails), Fixed(evm), ChainNamed(chainName), Fixed(field)];
  }

  lemma TermPlaced(stem: Stem, field: Word, chainName: string)
    requires field in TermFields
    ensures SchemaAt(Section(Root), SlotPath(Setting(Term(stem, field)), chainName)) == Some(Holds(Setting(Term(stem, field)), TermKind(field)))
  {
    hide WordField, SchemaAt, TermKind, TermFields, StemOf, PairOf, SectionPath, SectionPlace;
    SectionFound(Corridors);
    RecordPaths();
    var path := [Fixed(corridors)];
    TermHeld(stem, field);
    PairStem(stem, chainName);
    SchemaEnd(Section(Root), path, PairOf(stem, chainName));
    var longer := path + [PairOf(stem, chainName)];
    SchemaEnd(Section(Root), longer, Fixed(field));
    assert longer + [Fixed(field)] == [Fixed(corridors), PairOf(stem, chainName), Fixed(field)];
  }

  lemma PlainPlaced(knob: Knob, chainName: string)
    requires knob in Settings || knob == OfferMarkets
    ensures SlotPath(Setting(knob), chainName) != []
    ensures SchemaAt(Section(Root), SlotPath(Setting(knob), chainName)) == Some(Holds(Setting(knob), PlainKind(knob)))
  {
    SettingsAreLeaves(knob);
    SectionFound(knob.section);
    assert WordField(knob.section, knob.word) == Some(Holds(Setting(knob), PlainKind(knob)));
    hide WordField, SectionPath, SchemaAt, PlainKind, Settings;
    SchemaEnd(Section(Root), SectionPath(knob.section), Fixed(knob.word));
  }

  function KindOf(slot: Slot): Kind {
    match slot
    case AssetAt(_) => TextKind
    case Setting(Evm(field)) => ChainFieldKind(field)
    case Setting(Term(_, field)) => TermKind(field)
    case Setting(knob) => PlainKind(knob)
  }

  /** Every slot's path leads to the leaf that holds it. */
  lemma SlotPlaced(slot: Slot, chainName: string)
    requires Known(slot)
    ensures SlotPath(slot, chainName) != []
    ensures SchemaAt(Section(Root), SlotPath(slot, chainName)) == Some(Holds(slot, KindOf(slot)))
  {
    hide SchemaAt, Settings, EvmFields, TermFields, PlainKind, ChainFieldKind, TermKind;
    match slot
    case AssetAt(asset) => AssetPlaced(asset, chainName);
    case Setting(Evm(field)) => EvmPlaced(field, chainName);
    case Setting(Term(stem, field)) => TermPlaced(stem, field, chainName);
    case Setting(knob) => PlainPlaced(knob, chainName);
  }

  lemma {:induction false} NothingBelowALeaf(schema: Schema, path: seq<Key>, longer: seq<Key>)
    requires path < longer && SchemaAt(schema, path).Some? && SchemaAt(schema, path).value.Holds?
    ensures SchemaAt(schema, longer).None?
    decreases |path|
  {
    hide WordField;
    if path != [] {
      assert path[1..] < longer[1..];
      NothingBelowALeaf(Below(schema, path[0]).value, path[1..], longer[1..]);
    }
  }

  /** Different slots are at paths apart from each other. */
  lemma SlotsApart(a: Slot, b: Slot, chainName: string)
    requires Known(a) && Known(b) && a != b
    ensures Apart(SlotPath(a, chainName), SlotPath(b, chainName))
  {
    hide SlotPath, SchemaAt, Known, KindOf;
    var p, q := SlotPath(a, chainName), SlotPath(b, chainName);
    SlotPlaced(a, chainName);
    SlotPlaced(b, chainName);
    assert p != q;
    if p < q { NothingBelowALeaf(Section(Root), p, q); }
    if q < p { NothingBelowALeaf(Section(Root), q, p); }
  }

  lemma {:induction false} SectionThrough(schema: Schema, section: seq<Key>, path: seq<Key>)
    requires section < path && SchemaAt(schema, section).Some? && SchemaAt(schema, path).Some?
    ensures Below(SchemaAt(schema, section).value, path[|section|]).Some?
    decreases |section|
  {
    hide WordField;
    if section != [] {
      assert section[1..] < path[1..];
      SectionThrough(Below(schema, section[0]).value, section[1..], path[1..]);
    }
  }

  /** A section and a slot: the slot is in the section, or they are apart. */
  lemma SectionOrApart(section: seq<Key>, slot: Slot, chainName: string)
    requires Known(slot) && SchemaAt(Section(Root), section).Some? && SchemaAt(Section(Root), section).value.Section?
    ensures section < SlotPath(slot, chainName) || Apart(section, SlotPath(slot, chainName))
  {
    hide SlotPath, SchemaAt, Known, KindOf;
    var path := SlotPath(slot, chainName);
    SlotPlaced(slot, chainName);
    if path < section { NothingBelowALeaf(Section(Root), path, section); }
    assert path != section;
  }

  lemma {:induction false} SectionKeysFixed(section: SectionName)
    ensures forall key :: key in SectionPath(section) ==> key.Fixed?
    decreases Depth(section)
  {
    SectionDepth(section);
    hide Depth, SectionPlace;
    if SectionPlace(section).Field? { SectionKeysFixed(SectionPlace(section).section); }
  }

  lemma RecordHasNoFixed(section: SectionName, word: Word)
    requires IsRecord(section)
    ensures WordField(section, word).None?
  {
    var knob := Plain(section, word);
    if knob in Settings || knob == OfferMarkets { SettingsAreLeaves(knob); }
    hide Settings;
  }

  /** No setting at a fixed path is in a section whose keys are not fixed. */
  lemma PlainOutside(section: SectionName, knob: Knob, chainName: string)
    requires IsRecord(section) && (knob in Settings || knob == OfferMarkets)
    ensures Apart(SectionPath(section), SlotPath(Setting(knob), chainName))
  {
    hide SchemaAt, Settings, SectionPath, WordField;
    var slot := Setting(knob);
    SettingsAreLeaves(knob);
    PlainPlaced(knob, chainName);
    SectionFound(section);
    var path, outer := SlotPath(slot, chainName), SectionPath(section);
    SectionOrApart(outer, slot, chainName);
    SectionKeysFixed(knob.section);
    if outer < path {
      SectionThrough(Section(Root), outer, path);
      assert path[|outer|] in path && path[|outer|].Fixed?;
      RecordHasNoFixed(section, path[|outer|].word);
    }
  }
}
