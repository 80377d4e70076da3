/**
 * The store configuration service: the settings record, the per-wilaya
 * delivery price table and the discount-code list, with the two queries the
 * checkout asks of them (discount validation and delivery pricing).
 */
module Store {
  import opened Wrappers
  import opened Lists
  import opened Text
  import opened Money

  datatype DeliveryType = Home | StopDesk

  datatype DiscountType = Percentage | Fixed

  datatype StoreSettings = StoreSettings(
    storeName: string,
    storeDescription: string,
    currency: string,
    taxRate: real,                // percent
    defaultShippingPrice: real,
    enableWeightBasedShipping: bool,
    enableDiscountCodes: bool,
    enableSizeSelection: bool,
    enableColorSelection: bool)

  /** A partial settings record: the fields an update carries. */
  datatype SettingsPatch = SettingsPatch(
    storeName: Option<string>,
    storeDescription: Option<string>,
    currency: Option<string>,
    taxRate: Option<real>,
    defaultShippingPrice: Option<real>,
    enableWeightBasedShipping: Option<bool>,
    enableDiscountCodes: Option<bool>,
    enableSizeSelection: Option<bool>,
    enableColorSelection: Option<bool>)

  const NoSettingsChange := SettingsPatch(None, None, None, None, None, None, None, None, None)

  /** One row of the delivery table; `weightMultiplier` may be absent. */
  datatype DeliveryPrice = DeliveryPrice(state: string, homeDelivery: real, stopDesk: real, weightMultiplier: Option<real>)

  /**
   * A discount code. `expiryDate` is the expiry instant in milliseconds since
   * the epoch, as the date string it is stored as denotes.
   */
  datatype DiscountCode = DiscountCode(
    id: string,
    code: string,
    kind: DiscountType,
    value: real,
    isActive: bool,
    expiryDate: Option<int>,
    minOrderAmount: Option<real>)

  /**
   * A partial discount code. For the two optional fields, `Some(None)` is an
   * update that carries the field as `undefined`.
   */
  datatype DiscountPatch = DiscountPatch(
    id: Option<string>,
    code: Option<string>,
    kind: Option<DiscountType>,
    value: Option<real>,
    isActive: Option<bool>,
    expiryDate: Option<Option<int>>,
    minOrderAmount: Option<Option<real>>)

  const NoDiscountChange := DiscountPatch(None, None, None, None, None, None, None)

  // ---------------------------------------------------------------------
  // Built-in defaults, used when nothing is saved

  function DefaultSettings(): StoreSettings {
    StoreSettings("AS", "Votre boutique en ligne de confiance", "DA", 19.0, 500.0, true, true, true, true)
  }

  function DefaultDiscountCodes(): seq<DiscountCode> {
    [ DiscountCode("1", "WELCOME10", Percentage, 10.0, true, None, Some(5000.0)),
      DiscountCode("2", "SAVE500", Fixed, 500.0, true, None, Some(2000.0)),
      DiscountCode("3", "NEWCLIENT", Percentage, 15.0, true, None, Some(10000.0)) ]
  }

  /** The 48 wilayas of Algeria with their home and stop-desk prices. */
  function DefaultDeliveryPrices(): seq<DeliveryPrice> {
    WilayasA() + WilayasB() + WilayasC() + WilayasD() + WilayasE() + WilayasF()
  }

  // the table in six groups of eight, in table order

  function WilayasA(): seq<DeliveryPrice> {
    [ DeliveryPrice("Adrar", 1600.0, 800.0, Some(1.2)),
      DeliveryPrice("Chlef", 900.0, 450.0, Some(1.0)),
      DeliveryPrice("Laghouat", 1200.0, 600.0, Some(1.1)),
      DeliveryPrice("Oum El Bouaghi", 900.0, 350.0, Some(1.0)),
      DeliveryPrice("Batna", 850.0, 350.0, Some(1.0)),
      DeliveryPrice("Béjaïa", 850.0, 400.0, Some(1.0)),
      DeliveryPrice("Biskra", 850.0, 350.0, Some(1.1)),
      DeliveryPrice("Béchar", 1400.0, 800.0, Some(1.3)) ]
  }

  function WilayasB(): seq<DeliveryPrice> {
    [ DeliveryPrice("Blida", 800.0, 350.0, Some(0.8)),
      DeliveryPrice("Bouira", 850.0, 400.0, Some(0.9)),
      DeliveryPrice("Tamanrasset", 1600.0, 1000.0, Some(1.5)),
      DeliveryPrice("Tébessa", 800.0, 600.0, Some(1.1)),
      DeliveryPrice("Tlemcen", 900.0, 350.0, Some(1.0)),
      DeliveryPrice("Tiaret", 950.0, 400.0, Some(1.0)),
      DeliveryPrice("Tizi Ouzou", 850.0, 400.0, Some(0.9)),
      DeliveryPrice("Alger", 750.0, 350.0, Some(0.7)) ]
  }

  function WilayasC(): seq<DeliveryPrice> {
    [ DeliveryPrice("Djelfa", 1200.0, 600.0, Some(1.0)),
      DeliveryPrice("Jijel", 850.0, 400.0, Some(1.0)),
      DeliveryPrice("Sétif", 850.0, 350.0, Some(1.0)),
      DeliveryPrice("Saïda", 1000.0, 400.0, Some(1.0)),
      DeliveryPrice("Skikda", 850.0, 400.0, Some(1.0)),
      DeliveryPrice("Sidi Bel Abbès", 900.0, 400.0, Some(1.0)),
      DeliveryPrice("Annaba", 850.0, 350.0, Some(1.0)),
      DeliveryPrice("Guelma", 850.0, 400.0, Some(1.0)) ]
  }

  function WilayasD(): seq<DeliveryPrice> {
    [ DeliveryPrice("Constantine", 850.0, 400.0, Some(1.0)),
      DeliveryPrice("Médéa", 850.0, 400.0, Some(0.9)),
      DeliveryPrice("Mostaganem", 900.0, 400.0, Some(1.0)),
      DeliveryPrice("M'Sila", 900.0, 350.0, Some(1.0)),
      DeliveryPrice("Mascara", 950.0, 400.0, Some(1.0)),
      DeliveryPrice("Ouargla", 1200.0, 600.0, Some(1.2)),
      DeliveryPrice("Oran", 900.0, 350.0, Some(0.9)),
      DeliveryPrice("El Bayadh", 1400.0, 600.0, Some(1.1)) ]
  }

  function WilayasE(): seq<DeliveryPrice> {
    [ DeliveryPrice("Illizi", 1800.0, 1200.0, Some(1.4)),
      DeliveryPrice("Bordj Bou Arreridj", 850.0, 400.0, Some(1.0)),
      DeliveryPrice("Boumerdès", 650.0, 400.0, Some(0.8)),
      DeliveryPrice("El Tarf", 850.0, 400.0, Some(1.1)),
      DeliveryPrice("Tindouf", 1600.0, 1000.0, Some(1.4)),
      DeliveryPrice("Tissemsilt", 950.0, 400.0, Some(1.0)),
      DeliveryPrice("El Oued", 1000.0, 600.0, Some(1.1)),
      DeliveryPrice("Khenchela", 800.0, 350.0, Some(1.1)) ]
  }

  function WilayasF(): seq<DeliveryPrice> {
    [ DeliveryPrice("Souk Ahras", 850.0, 400.0, Some(1.1)),
      DeliveryPrice("Tipaza", 850.0, 350.0, Some(0.8)),
      DeliveryPrice("Mila", 800.0, 350.0, Some(1.0)),
      DeliveryPrice("Aïn Defla", 900.0, 400.0, Some(0.9)),
      DeliveryPrice("Naâma", 1400.0, 800.0, Some(1.2)),
      DeliveryPrice("Aïn Témouchent", 950.0, 400.0, Some(1.0)),
      DeliveryPrice("Ghardaïa", 1200.0, 600.0, Some(1.1)),
      DeliveryPrice("Relizane", 950.0, 400.0, Some(1.0)) ]
  }

  // ---------------------------------------------------------------------
  // Settings updates

  /** `{ ...s, ...p }`: each setting the update carries replaces the old one. */
  function MergeSettings(s: StoreSettings, p: SettingsPatch): (r: StoreSettings)
    ensures Spread(p.storeName, s.storeName, r.storeName)
    ensures Spread(p.storeDescription, s.storeDescription, r.storeDescription)
    ensures Spread(p.currency, s.currency, r.currency)
    ensures Spread(p.taxRate, s.taxRate, r.taxRate)
    ensures Spread(p.defaultShippingPrice, s.defaultShippingPrice, r.defaultShippingPrice)
    ensures Spread(p.enableWeightBasedShipping, s.enableWeightBasedShipping, r.enableWeightBasedShipping)
    ensures Spread(p.enableDiscountCodes, s.enableDiscountCodes, r.enableDiscountCodes)
    ensures Spread(p.enableSizeSelection, s.enableSizeSelection, r.enableSizeSelection)
    ensures Spread(p.enableColorSelection, s.enableColorSelection, r.enableColorSelection)
  {
    StoreSettings(
      p.storeName.GetOr(s.storeName),
      p.storeDescription.GetOr(s.storeDescription),
      p.currency.GetOr(s.currency),
      p.taxRate.GetOr(s.taxRate),
      p.defaultShippingPrice.GetOr(s.defaultShippingPrice),
      p.enableWeightBasedShipping.GetOr(s.enableWeightBasedShipping),
      p.enableDiscountCodes.GetOr(s.enableDiscountCodes),
      p.enableSizeSelection.GetOr(s.enableSizeSelection),
      p.enableColorSelection.GetOr(s.enableColorSelection))
  }

  /** An update that carries only the tax rate. */
  function TaxRateOnly(rate: real): SettingsPatch {
    NoSettingsChange.(taxRate := Some(rate))
  }

  /** Writing the tax rate alone sets it and leaves every other setting as it was. */
  lemma UpdateTaxRateOnly(s: StoreSettings, rate: real)
    ensures MergeSettings(s, TaxRateOnly(rate)) == s.(taxRate := rate)
    ensures MergeSettings(s, TaxRateOnly(rate)).taxRate == rate
  {
  }

  /** An empty update changes nothing. */
  lemma MergeNoChange(s: StoreSettings)
    ensures MergeSettings(s, NoSettingsChange) == s
  {
  }

  /** Applying the same update twice is the same as applying it once. */
  lemma MergeSettingsIdempotent(s: StoreSettings, p: SettingsPatch)
    ensures MergeSettings(MergeSettings(s, p), p) == MergeSettings(s, p)
  {
  }

  /** The later of two updates wins on every field it carries. */
  function ThenSettings(p: SettingsPatch, q: SettingsPatch): SettingsPatch {
    SettingsPatch(
      if q.storeName.Some? then q.storeName else p.storeName,
      if q.storeDescription.Some? then q.storeDescription else p.storeDescription,
      if q.currency.Some? then q.currency else p.currency,
      if q.taxRate.Some? then q.taxRate else p.taxRate,
      if q.defaultShippingPrice.Some? then q.defaultShippingPrice else p.defaultShippingPrice,
      if q.enableWeightBasedShipping.Some? then q.enableWeightBasedShipping else p.enableWeightBasedShipping,
      if q.enableDiscountCodes.Some? then q.enableDiscountCodes else p.enableDiscountCodes,
      if q.enableSizeSelection.Some? then q.enableSizeSelection else p.enableSizeSelection,
      if q.enableColorSelection.Some? then q.enableColorSelection else p.enableColorSelection)
  }

  /** Two successive updates act as one combined update. */
  lemma MergeSettingsCompose(s: StoreSettings, p: SettingsPatch, q: SettingsPatch)
    ensures MergeSettings(MergeSettings(s, p), q) == MergeSettings(s, ThenSettings(p, q))
  {
  }

  // ---------------------------------------------------------------------
  // Discount-code list updates

  function HasId(id: string): DiscountCode -> bool {
    (c: DiscountCode) => c.id == id
  }

  function LacksId(id: string): DiscountCode -> bool {
    (c: DiscountCode) => c.id != id
  }

  /** `{ ...c, ...p }`: each field the patch carries replaces the old one. */
  function MergeCode(c: DiscountCode, p: DiscountPatch): (r: DiscountCode)
    ensures Spread(p.id, c.id, r.id)
    ensures Spread(p.code, c.code, r.code)
    ensures Spread(p.kind, c.kind, r.kind)
    ensures Spread(p.value, c.value, r.value)
    ensures Spread(p.isActive, c.isActive, r.isActive)
    ensures Spread(p.expiryDate, c.expiryDate, r.expiryDate)
    ensures Spread(p.minOrderAmount, c.minOrderAmount, r.minOrderAmount)
  {
    DiscountCode(
      p.id.GetOr(c.id),
      p.code.GetOr(c.code),
      p.kind.GetOr(c.kind),
      p.value.GetOr(c.value),
      p.isActive.GetOr(c.isActive),
      p.expiryDate.GetOr(c.expiryDate),
      p.minOrderAmount.GetOr(c.minOrderAmount))
  }

  function Merger(p: DiscountPatch): DiscountCode -> DiscountCode {
    c => MergeCode(c, p)
  }

  /** `codes.map(c => c.id === id ? { ...c, ...p } : c)` */
  function UpdateCodes(codes: seq<DiscountCode>, id: string, p: DiscountPatch): (r: seq<DiscountCode>)
    ensures |r| == |codes|
    ensures forall i :: 0 <= i < |codes| ==>
              r[i] == if codes[i].id == id then MergeCode(codes[i], p) else codes[i]
  {
    MapWhere(codes, HasId(id), Merger(p))
  }

  /** `codes.filter(c => c.id !== id)` */
  function DeleteCodes(codes: seq<DiscountCode>, id: string): (r: seq<DiscountCode>)
    ensures forall c :: c in r ==> c in codes && c.id != id
  {
    Filter(codes, LacksId(id))
  }

  /**
   * Deleting keeps every other entry, as many times as it occurred, in its
   * original order.
   */
  lemma DeleteKeepsOthers(codes: seq<DiscountCode>, id: string)
    ensures forall c :: c in codes && c.id != id ==> multiset(DeleteCodes(codes, id))[c] == multiset(codes)[c]
    ensures forall c :: c in codes && c.id == id ==> c !in DeleteCodes(codes, id)
    ensures IsSubsequence(DeleteCodes(codes, id), codes)
  {
    FilterMultiset(codes, LacksId(id));
    FilterIsSubsequence(codes, LacksId(id));
  }

  /** Updating an id that no entry carries leaves the list as it was. */
  lemma UpdateAbsentIdIsIdentity(codes: seq<DiscountCode>, id: string, p: DiscountPatch)
    requires forall i :: 0 <= i < |codes| ==> codes[i].id != id
    ensures UpdateCodes(codes, id, p) == codes
  {
  }

  /**
   * An update that keeps ids touches only entries that deleting the id
   * removes anyway.
   */
  lemma {:induction false} DeleteAfterUpdate(codes: seq<DiscountCode>, id: string, p: DiscountPatch)
    requires p.id.None?
    ensures DeleteCodes(UpdateCodes(codes, id, p), id) == DeleteCodes(codes, id)
    decreases |codes|
  {
    if |codes| > 0 {
      var u := UpdateCodes(codes, id, p);
      assert u[1..] == UpdateCodes(codes[1..], id, p);
      DeleteAfterUpdate(codes[1..], id, p);
      assert u[0].id == codes[0].id;
    }
  }

  /** Deleting a newly appended code whose id was unused gives back the old list. */
  lemma AddThenDelete(codes: seq<DiscountCode>, c: DiscountCode)
    requires forall i :: 0 <= i < |codes| ==> codes[i].id != c.id
    ensures DeleteCodes(codes + [c], c.id) == codes
  {
    FilterAppend(codes, [c], LacksId(c.id));
    FilterKeepsAll(codes, LacksId(c.id));
    assert Filter([c], LacksId(c.id)) == [] by {
      assert [c][1..] == [];
    }
  }

  /** Deleting twice is deleting once. */
  lemma DeleteCodesIdempotent(codes: seq<DiscountCode>, id: string)
    ensures DeleteCodes(DeleteCodes(codes, id), id) == DeleteCodes(codes, id)
  {
    FilterIdempotent(codes, LacksId(id));
  }

  // ---------------------------------------------------------------------
  // Discount validation

  /** No minimum, a zero minimum, or an order at least as large as the minimum. */
  predicate MinOrderMet(d: DiscountCode, orderAmount: real) {
    d.minOrderAmount.None? || d.minOrderAmount.value == 0.0 || orderAmount >= d.minOrderAmount.value
  }

  /** No expiry, or an expiry strictly after `now`. */
  predicate NotExpired(d: DiscountCode, now: int) {
    d.expiryDate.None? || d.expiryDate.value > now
  }

  /** The four conditions a code must meet to be redeemed. */
  predicate Eligible(d: DiscountCode, code: string, orderAmount: real, now: int) {
    && Lower(d.code) == Lower(code)
    && d.isActive
    && MinOrderMet(d, orderAmount)
    && NotExpired(d, now)
  }

  function Eligibility(code: string, orderAmount: real, now: int): DiscountCode -> bool {
    d => Eligible(d, code, orderAmount, now)
  }

  /**
   * `validateDiscountCode(code, orderAmount)` at instant `now`: the first
   * entry of the list that matches the typed code case-insensitively, is
   * active, meets its minimum and has not expired; none if there is no such entry.
   */
  function ValidateDiscountCode(codes: seq<DiscountCode>, code: string, orderAmount: real, now: int)
    : (r: Option<DiscountCode>)
    ensures r.Some? ==> r.value in codes && Eligible(r.value, code, orderAmount, now)
    ensures r.None? <==> forall i :: 0 <= i < |codes| ==> !Eligible(codes[i], code, orderAmount, now)
  {
    Find(codes, Eligibility(code, orderAmount, now))
  }

  /** When several entries qualify, the first one in list order is returned. */
  lemma ValidateReturnsFirstMatch(codes: seq<DiscountCode>, code: string, orderAmount: real, now: int, i: nat)
    requires i < |codes| && Eligible(codes[i], code, orderAmount, now)
    requires forall j :: 0 <= j < i ==> !Eligible(codes[j], code, orderAmount, now)
    ensures ValidateDiscountCode(codes, code, orderAmount, now) == Some(codes[i])
  {
    FindIsFirst(codes, Eligibility(code, orderAmount, now), i);
  }

  /** An inactive code never validates, whatever its amount or expiry. */
  lemma InactiveNeverValidates(codes: seq<DiscountCode>, code: string, orderAmount: real, now: int)
    requires forall i :: 0 <= i < |codes| && Lower(codes[i].code) == Lower(code) ==> !codes[i].isActive
    ensures ValidateDiscountCode(codes, code, orderAmount, now) == None
  {
  }

  /**
   * With the built-in codes, WELCOME10 (10 %, minimum 5000) is refused on a
   * 4000 order and accepted, in any letter case, on a 6000 order.
   */
  lemma Welcome10Example(now: int)
    ensures ValidateDiscountCode(DefaultDiscountCodes(), "WELCOME10", 4000.0, now) == None
    ensures ValidateDiscountCode(DefaultDiscountCodes(), "welcome10", 6000.0, now) == Some(DefaultDiscountCodes()[0])
  {
    var codes := DefaultDiscountCodes();
    assert Lower("SAVE500")[0] == 's' && Lower("NEWCLIENT")[0] == 'n' && Lower("WELCOME10")[0] == 'w';
    assert Lower("WELCOME10") == Lower("welcome10") == "welcome10";
    assert !Eligible(codes[0], "WELCOME10", 4000.0, now);
    assert !Eligible(codes[1], "WELCOME10", 4000.0, now);
    assert !Eligible(codes[2], "WELCOME10", 4000.0, now);
    ValidateReturnsFirstMatch(codes, "welcome10", 6000.0, now, 0);
  }

  // ---------------------------------------------------------------------
  // Delivery pricing

  function StateIs(state: string): DeliveryPrice -> bool {
    (p: DeliveryPrice) => p.state == state
  }

  /** The first table row for the wilaya. */
  function FindDeliveryPrice(prices: seq<DeliveryPrice>, state: string): (r: Option<DeliveryPrice>)
    ensures r.Some? ==> r.value in prices && r.value.state == state
    ensures r.None? <==> forall i :: 0 <= i < |prices| ==> prices[i].state != state
  {
    Find(prices, StateIs(state))
  }

  function BasePrice(entry: DeliveryPrice, deliveryType: DeliveryType): real {
    match deliveryType
    case Home => entry.homeDelivery
    case StopDesk => entry.stopDesk
  }

  /** Weight-based shipping is on and the row carries a non-zero multiplier. */
  predicate UsesWeight(settings: StoreSettings, entry: DeliveryPrice) {
    settings.enableWeightBasedShipping && entry.weightMultiplier.Some? && entry.weightMultiplier.value != 0.0
  }

  /**
   * `Math.round(base * (weight * multiplier))`: a whole number of dinars,
   * the nearest to the exact weighted price.
   */
  function WeightedPrice(base: real, weight: real, multiplier: real): (r: real)
    ensures r == r.Floor as real
    ensures base * (weight * multiplier) - 0.5 < r <= base * (weight * multiplier) + 0.5
  {
    Round(base * (weight * multiplier)) as real
  }

  /** The price of one table row: the base price, weighted when weight-based shipping applies to it. */
  function EntryPrice(settings: StoreSettings, entry: DeliveryPrice, deliveryType: DeliveryType, weight: real): (r: real)
    ensures !UsesWeight(settings, entry) ==> r == BasePrice(entry, deliveryType)
    ensures UsesWeight(settings, entry) ==>
              var exact := BasePrice(entry, deliveryType) * (weight * entry.weightMultiplier.value);
              r == r.Floor as real && exact - 0.5 < r <= exact + 0.5
  {
    if UsesWeight(settings, entry) then
      WeightedPrice(BasePrice(entry, deliveryType), weight, entry.weightMultiplier.value)
    else
      BasePrice(entry, deliveryType)
  }

  /**
   * `calculateDeliveryPrice(state, deliveryType, weight)`: the price of the
   * wilaya's row, or the default shipping price when the wilaya has no row;
   * an absent weight counts as 1.
   */
  function CalculateDeliveryPrice(settings: StoreSettings, prices: seq<DeliveryPrice>, state: string,
                                  deliveryType: DeliveryType, weight: Option<real>): (r: real)
    ensures (forall i :: 0 <= i < |prices| ==> prices[i].state != state) ==> r == settings.defaultShippingPrice
    ensures forall i :: 0 <= i < |prices| && prices[i].state == state &&
                        (forall j :: 0 <= j < i ==> prices[j].state != state) ==>
              r == EntryPrice(settings, prices[i], deliveryType, weight.GetOr(1.0))
  {
    match FindDeliveryPrice(prices, state)
    case None => settings.defaultShippingPrice
    case Some(entry) => EntryPrice(settings, entry, deliveryType, weight.GetOr(1.0))
  }

  /** With weight-based shipping off, the price does not depend on the weight. */
  lemma PriceIgnoresWeightWhenDisabled(settings: StoreSettings, prices: seq<DeliveryPrice>, state: string,
                                       deliveryType: DeliveryType, w1: Option<real>, w2: Option<real>)
    requires !settings.enableWeightBasedShipping
    ensures CalculateDeliveryPrice(settings, prices, state, deliveryType, w1)
         == CalculateDeliveryPrice(settings, prices, state, deliveryType, w2)
  {
  }

  /** With a non-negative base price and multiplier, the weighted price grows with the weight. */
  lemma WeightedPriceMonotone(base: real, multiplier: real, w1: real, w2: real)
    requires base >= 0.0 && multiplier >= 0.0 && w1 <= w2
    ensures WeightedPrice(base, w1, multiplier) <= WeightedPrice(base, w2, multiplier)
  {
    assert w1 * multiplier <= w2 * multiplier;
    assert base * (w1 * multiplier) <= base * (w2 * multiplier);
    RoundMonotone(base * (w1 * multiplier), base * (w2 * multiplier));
  }

  /** For one row with non-negative prices and multiplier, a heavier parcel never costs less. */
  lemma EntryPriceMonotone(settings: StoreSettings, entry: DeliveryPrice, deliveryType: DeliveryType, w1: real, w2: real)
    requires w1 <= w2
    requires entry.homeDelivery >= 0.0 && entry.stopDesk >= 0.0 && entry.weightMultiplier.GetOr(0.0) >= 0.0
    ensures EntryPrice(settings, entry, deliveryType, w1) <= EntryPrice(settings, entry, deliveryType, w2)
  {
    if UsesWeight(settings, entry) {
      WeightedPriceMonotone(BasePrice(entry, deliveryType), entry.weightMultiplier.value, w1, w2);
    }
  }

  /**
   * With non-negative prices and multipliers, a heavier parcel never costs
   * less to ship.
   */
  lemma PriceMonotoneInWeight(settings: StoreSettings, prices: seq<DeliveryPrice>, state: string,
                              deliveryType: DeliveryType, w1: real, w2: real)
    requires w1 <= w2
    requires forall i :: 0 <= i < |prices| ==>
               prices[i].homeDelivery >= 0.0 && prices[i].stopDesk >= 0.0 && prices[i].weightMultiplier.GetOr(0.0) >= 0.0
    ensures CalculateDeliveryPrice(settings, prices, state, deliveryType, Some(w1))
         <= CalculateDeliveryPrice(settings, prices, state, deliveryType, Some(w2))
  {
    var found := FindDeliveryPrice(prices, state);
    if found.Some? {
      EntryPriceMonotone(settings, found.value, deliveryType, w1, w2);
    }
  }

  /** Alger by home delivery, 1 kg, default settings: round(750 × 0.7) = 525. */
  lemma AlgerHomeExample()
    ensures CalculateDeliveryPrice(DefaultSettings(), DefaultDeliveryPrices(), "Alger", Home, Some(1.0)) == 525.0
  {
    AlgerRow();
    FindIsFirst(DefaultDeliveryPrices(), StateIs("Alger"), 15);
    RoundOfInteger(525);
  }

  /** No row of `rows` is for the wilaya `state`. */
  predicate NoRowFor(rows: seq<DeliveryPrice>, state: string) {
    forall j :: 0 <= j < |rows| ==> rows[j].state != state
  }

  lemma NoRowForAppend(a: seq<DeliveryPrice>, b: seq<DeliveryPrice>, state: string)
    requires NoRowFor(a, state) && NoRowFor(b, state)
    ensures NoRowFor(a + b, state)
  {
    forall j | 0 <= j < |a + b| ensures (a + b)[j].state != state {
      if j < |a| {
        assert (a + b)[j] == a[j];
      } else {
        assert (a + b)[j] == b[j - |a|];
      }
    }
  }

  /** A wilaya that no group of the built-in table lists has no price there and ships at the default price. */
  lemma MissingFromTable(state: string, deliveryType: DeliveryType, weight: Option<real>)
    requires NoRowFor(WilayasA(), state) && NoRowFor(WilayasB(), state) && NoRowFor(WilayasC(), state)
    requires NoRowFor(WilayasD(), state) && NoRowFor(WilayasE(), state) && NoRowFor(WilayasF(), state)
    ensures FindDeliveryPrice(DefaultDeliveryPrices(), state).None?
    ensures CalculateDeliveryPrice(DefaultSettings(), DefaultDeliveryPrices(), state, deliveryType, weight)
         == DefaultSettings().defaultShippingPrice
  {
    var ab := WilayasA() + WilayasB();
    var abc := ab + WilayasC();
    var abcd := abc + WilayasD();
    var abcde := abcd + WilayasE();
    NoRowForAppend(WilayasA(), WilayasB(), state);
    NoRowForAppend(ab, WilayasC(), state);
    NoRowForAppend(abc, WilayasD(), state);
    NoRowForAppend(abcd, WilayasE(), state);
    NoRowForAppend(abcde, WilayasF(), state);
  }

  /** Group `k` of the built-in table, counting from 0. */
  function Wilayas(k: nat): seq<DeliveryPrice>
    requires k < 6
  {
    if k == 0 then WilayasA() else if k == 1 then WilayasB() else if k == 2 then WilayasC()
    else if k == 3 then WilayasD() else if k == 4 then WilayasE() else WilayasF()
  }

  /** No group lists `MSila`. */
  lemma GroupLacksMSila(k: nat)
    requires k < 6
    ensures NoRowFor(Wilayas(k), "MSila")
  {
    if k == 0 { assert Wilayas(k) == WilayasA(); }
    else if k == 1 { assert Wilayas(k) == WilayasB(); }
    else if k == 2 { assert Wilayas(k) == WilayasC(); }
    else if k == 3 { assert Wilayas(k) == WilayasD(); }
    else if k == 4 { assert Wilayas(k) == WilayasE(); }
    else { assert Wilayas(k) == WilayasF(); }
  }

  /** No group lists `Bordj Bou Arréridj`. */
  lemma GroupLacksAccentedBordj(k: nat)
    requires k < 6
    ensures NoRowFor(Wilayas(k), "Bordj Bou Arréridj")
  {
    if k == 0 { assert Wilayas(k) == WilayasA(); }
    else if k == 1 { assert Wilayas(k) == WilayasB(); }
    else if k == 2 { assert Wilayas(k) == WilayasC(); }
    else if k == 3 { assert Wilayas(k) == WilayasD(); }
    else if k == 4 { assert Wilayas(k) == WilayasE(); }
    else { assert Wilayas(k) == WilayasF(); }
  }

  /**
   * `MSila` and `Bordj Bou Arréridj`, spelled without the apostrophe and
   * with the accent, match no row of the built-in table.
   */
  lemma VariantSpellingsMissing(deliveryType: DeliveryType, weight: Option<real>)
    ensures CalculateDeliveryPrice(DefaultSettings(), DefaultDeliveryPrices(), "MSila", deliveryType, weight)
         == DefaultSettings().defaultShippingPrice
    ensures CalculateDeliveryPrice(DefaultSettings(), DefaultDeliveryPrices(), "Bordj Bou Arréridj", deliveryType, weight)
         == DefaultSettings().defaultShippingPrice
  {
    GroupLacksMSila(0); GroupLacksMSila(1); GroupLacksMSila(2);
    GroupLacksMSila(3); GroupLacksMSila(4); GroupLacksMSila(5);
    MissingFromTable("MSila", deliveryType, weight);
    GroupLacksAccentedBordj(0); GroupLacksAccentedBordj(1); GroupLacksAccentedBordj(2);
    GroupLacksAccentedBordj(3); GroupLacksAccentedBordj(4); GroupLacksAccentedBordj(5);
    MissingFromTable("Bordj Bou Arréridj", deliveryType, weight);
  }

  /** The table spells the 34th wilaya `Bordj Bou Arreridj`. */
  lemma BordjRow()
    ensures |DefaultDeliveryPrices()| == 48
    ensures DefaultDeliveryPrices()[33] == DeliveryPrice("Bordj Bou Arreridj", 850.0, 400.0, Some(1.0))
  {
    assert DefaultDeliveryPrices()[33] == WilayasE()[1];
  }

  /** The table spells the 28th wilaya `M'Sila`; no earlier row has that name. */
  lemma MSilaRow()
    ensures |DefaultDeliveryPrices()| == 48
    ensures DefaultDeliveryPrices()[27] == DeliveryPrice("M'Sila", 900.0, 350.0, Some(1.0))
    ensures forall j :: 0 <= j < 27 ==> DefaultDeliveryPrices()[j].state != "M'Sila"
  {
    var ab := WilayasA() + WilayasB();
    var abc := ab + WilayasC();
    assert NoRowFor(WilayasA(), "M'Sila") && NoRowFor(WilayasB(), "M'Sila") && NoRowFor(WilayasC(), "M'Sila");
    NoRowForAppend(WilayasA(), WilayasB(), "M'Sila");
    NoRowForAppend(ab, WilayasC(), "M'Sila");
    var prices := DefaultDeliveryPrices();
    assert prices[..24] == abc;
    forall j | 0 <= j < 27 ensures prices[j].state != "M'Sila" {
      if j < 24 {
        assert prices[j] == abc[j];
      } else {
        assert prices[j] == WilayasD()[j - 24];
      }
    }
  }

  /** Alger is row 16 of the built-in table, and no earlier row is Alger. */
  lemma AlgerRow()
    ensures |DefaultDeliveryPrices()| > 15
    ensures DefaultDeliveryPrices()[15] == DeliveryPrice("Alger", 750.0, 350.0, Some(0.7))
    ensures forall j :: 0 <= j < 15 ==> DefaultDeliveryPrices()[j].state != "Alger"
  {
    var prices := DefaultDeliveryPrices();
    forall j | 0 <= j < 15 ensures prices[j].state != "Alger" {
      // every earlier name differs from "Alger" in its first or second letter
      if j == 0 { assert prices[j].state[1] == 'd'; }
      else if j == 1 { assert prices[j].state[0] == 'C'; }
      else if j == 2 { assert prices[j].state[0] == 'L'; }
      else if j == 3 { assert prices[j].state[0] == 'O'; }
      else if j < 10 { assert prices[j].state[0] == 'B'; }
      else { assert prices[j].state[0] == 'T'; }
    }
  }

  // ---------------------------------------------------------------------
  // The service object

  class StoreService {
    var settings: StoreSettings
    var deliveryPrices: seq<DeliveryPrice>
    var discountCodes: seq<DiscountCode>

    /** Start-up: each record is its saved copy when one exists, else the built-in default. */
    constructor (savedSettings: Option<StoreSettings>, savedPrices: Option<seq<DeliveryPrice>>,
                 savedCodes: Option<seq<DiscountCode>>)
      ensures settings == savedSettings.GetOr(DefaultSettings())
      ensures deliveryPrices == savedPrices.GetOr(DefaultDeliveryPrices())
      ensures discountCodes == savedCodes.GetOr(DefaultDiscountCodes())
    {
      settings := savedSettings.GetOr(DefaultSettings());
      deliveryPrices := savedPrices.GetOr(DefaultDeliveryPrices());
      discountCodes := savedCodes.GetOr(DefaultDiscountCodes());
    }

    /** `updateSettings`: the fields the patch carries take their new values. */
    method UpdateSettings(patch: SettingsPatch)
      modifies this
      ensures settings == MergeSettings(old(settings), patch)
      ensures deliveryPrices == old(deliveryPrices) && discountCodes == old(discountCodes)
    {
      settings := MergeSettings(settings, patch);
    }

    /** `updateDeliveryPrices`: wholesale replacement of the table. */
    method UpdateDeliveryPrices(prices: seq<DeliveryPrice>)
      modifies this
      ensures deliveryPrices == prices
      ensures settings == old(settings) && discountCodes == old(discountCodes)
    {
      deliveryPrices := prices;
    }

    /** `addDiscountCode`: appends at the end; an existing code or id is not refused. */
    method AddDiscountCode(code: DiscountCode)
      modifies this
      ensures discountCodes == old(discountCodes) + [code]
      ensures settings == old(settings) && deliveryPrices == old(deliveryPrices)
    {
      discountCodes := discountCodes + [code];
    }

    /** `updateDiscountCode`: merges the patch into every entry with that id. */
    method UpdateDiscountCode(id: string, patch: DiscountPatch)
      modifies this
      ensures discountCodes == UpdateCodes(old(discountCodes), id, patch)
      ensures settings == old(settings) && deliveryPrices == old(deliveryPrices)
    {
      discountCodes := UpdateCodes(discountCodes, id, patch);
    }

    /** `deleteDiscountCode`: drops every entry with that id. */
    method DeleteDiscountCode(id: string)
      modifies this
      ensures discountCodes == DeleteCodes(old(discountCodes), id)
      ensures settings == old(settings) && deliveryPrices == old(deliveryPrices)
    {
      discountCodes := DeleteCodes(discountCodes, id);
    }
  }
}
