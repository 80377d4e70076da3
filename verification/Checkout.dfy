/**
 * The checkout page: the pricing pipeline (subtotal, total weight,
 * shipping, discount, tax, total) and the session that walks the shopper
 * through shipping details, payment and review.
 */
module Checkout {
  import opened Wrappers
  import opened Lists
  import opened Text
  import opened Money
  import opened Store
  import opened Cart
  import SettingsPage

  // ---------------------------------------------------------------------
  // Pricing

  /** `item.weight || 0.5`: a missing or zero weight counts as half a kilogram. */
  function ItemWeight(item: CartItem): real {
    if item.weight.None? || item.weight.value == 0.0 then 0.5 else item.weight.value
  }

  function LineWeight(item: CartItem): real {
    ItemWeight(item) * item.quantity as real
  }

  function LineQuantity(item: CartItem): real {
    item.quantity as real
  }

  /**
   * Σ weight × quantity over the cart, a line without a weight (or with
   * weight 0) counting half a kilogram per unit.
   */
  function TotalWeight(items: seq<CartItem>): (w: real)
    ensures |items| == 0 ==> w == 0.0
    ensures |items| == 1 ==>
              w == (if items[0].weight.None? || items[0].weight.value == 0.0 then 0.5 else items[0].weight.value)
                   * items[0].quantity as real
  {
    SumOf(items, LineWeight)
  }

  /** The weight of two carts put together is the sum of their weights. */
  lemma TotalWeightAppend(a: seq<CartItem>, b: seq<CartItem>)
    ensures TotalWeight(a + b) == TotalWeight(a) + TotalWeight(b)
  {
    SumOfAppend(a, b, LineWeight);
  }

  /** A cart in which no line carries a weight weighs half a kilogram per unit. */
  lemma {:induction false} TotalWeightOfUnweighted(items: seq<CartItem>)
    requires forall i :: 0 <= i < |items| ==> items[i].weight.None?
    ensures TotalWeight(items) == 0.5 * SumOf(items, LineQuantity)
  {
    if |items| > 0 {
      TotalWeightOfUnweighted(items[1..]);
    }
  }

  /**
   * Shipping for the order: the delivery price of the chosen wilaya for the
   * cart's weight; before a wilaya is chosen, a fixed 500.
   */
  function Shipping(settings: StoreSettings, prices: seq<DeliveryPrice>, selectedState: string,
                    deliveryType: DeliveryType, items: seq<CartItem>): (r: real)
    ensures selectedState == "" ==> r == 500.0
    ensures selectedState != "" && (forall i :: 0 <= i < |prices| ==> prices[i].state != selectedState) ==>
              r == settings.defaultShippingPrice
    ensures selectedState != "" ==>
              r == CalculateDeliveryPrice(settings, prices, selectedState, deliveryType, Some(TotalWeight(items)))
  {
    if selectedState != "" then
      CalculateDeliveryPrice(settings, prices, selectedState, deliveryType, Some(TotalWeight(items)))
    else
      500.0
  }

  // ---------------------------------------------------------------------
  // The wilaya drop-down

  /** The wilayas the checkout's drop-down offers, spelled as the page spells them. */
  function AlgerianStates(): seq<string> {
    // eight wilayas per group, in the page's order
      [ "Adrar", "Chlef", "Laghouat", "Oum El Bouaghi", "Batna", "Béjaïa", "Biskra", "Béchar" ]
    + [ "Blida", "Bouira", "Tamanrasset", "Tébessa", "Tlemcen", "Tiaret", "Tizi Ouzou", "Alger" ]
    + [ "Djelfa", "Jijel", "Sétif", "Saïda", "Skikda", "Sidi Bel Abbès", "Annaba", "Guelma" ]
    + [ "Constantine", "Médéa", "Mostaganem", "MSila", "Mascara", "Ouargla", "Oran", "El Bayadh" ]
    + [ "Illizi", "Bordj Bou Arréridj", "Boumerdès", "El Tarf", "Tindouf", "Tissemsilt", "El Oued", "Khenchela" ]
    + [ "Souk Ahras", "Tipaza", "Mila", "Aïn Defla", "Naâma", "Aïn Témouchent", "Ghardaïa", "Relizane" ]
  }

  /** Where the drop-down's two variant spellings sit. */
  lemma DropDownSpellings()
    ensures |AlgerianStates()| == 48
    ensures AlgerianStates()[27] == "MSila" && AlgerianStates()[33] == "Bordj Bou Arréridj"
  {
  }

  /**
   * Two options of the drop-down, the 28th and the 34th, are spelled
   * differently from the table rows at the same places, so choosing them
   * finds no row and charges the default shipping price instead of the
   * wilaya's own.
   */
  lemma DropDownOptionsWithoutRow(deliveryType: DeliveryType, items: seq<CartItem>)
    ensures AlgerianStates()[27] == "MSila" && AlgerianStates()[33] == "Bordj Bou Arréridj"
    ensures DefaultDeliveryPrices()[27].state == "M'Sila" && DefaultDeliveryPrices()[33].state == "Bordj Bou Arreridj"
    ensures Shipping(DefaultSettings(), DefaultDeliveryPrices(), "MSila", deliveryType, items)
         == DefaultSettings().defaultShippingPrice
    ensures Shipping(DefaultSettings(), DefaultDeliveryPrices(), "Bordj Bou Arréridj", deliveryType, items)
         == DefaultSettings().defaultShippingPrice
  {
    DropDownSpellings();
    MSilaRow();
    BordjRow();
    VariantSpellingsMissing(deliveryType, Some(TotalWeight(items)));
  }

  /** The drop-down's options read from the delivery table itself, one per row. */
  function StateOptions(prices: seq<DeliveryPrice>): (options: seq<string>)
    ensures |options| == |prices|
    ensures forall i :: 0 <= i < |prices| ==> options[i] == prices[i].state
  {
    seq(|prices|, i requires 0 <= i < |prices| => prices[i].state)
  }

  /** With the options read from the table, every option has a row and ships at that row's price. */
  lemma EveryOptionHasARow(settings: StoreSettings, prices: seq<DeliveryPrice>, i: nat,
                           deliveryType: DeliveryType, items: seq<CartItem>)
    requires i < |prices| && prices[i].state != ""
    ensures var option := StateOptions(prices)[i];
            && FindDeliveryPrice(prices, option).Some?
            && Shipping(settings, prices, option, deliveryType, items)
               == EntryPrice(settings, FindDeliveryPrice(prices, option).value, deliveryType, TotalWeight(items))
  {
    var option := StateOptions(prices)[i];
    assert prices[i].state == option;
  }

  /** Read from the table, the 28th option is M'Sila and ships home at its own price. */
  lemma MSilaShipsAtItsRow()
    ensures StateOptions(DefaultDeliveryPrices())[27] == "M'Sila"
    ensures Shipping(DefaultSettings(), DefaultDeliveryPrices(), "M'Sila", Home, [CartItem(1, 1000.0, 1, Some(1.0))])
         == 900.0
  {
    var prices, items := DefaultDeliveryPrices(), [CartItem(1, 1000.0, 1, Some(1.0))];
    MSilaRow();
    FindIsFirst(prices, StateIs("M'Sila"), 27);
    assert TotalWeight(items) == 1.0;
    RoundOfInteger(900);
    assert EntryPrice(DefaultSettings(), prices[27], Home, 1.0) == 900.0;
    assert CalculateDeliveryPrice(DefaultSettings(), prices, "M'Sila", Home, Some(1.0)) == 900.0;
  }

  /**
   * The discount: none without an applied code, `subtotal × value / 100`
   * for a percentage code, `value` for a fixed code, never capped. A
   * percentage of at most 100 % takes off between nothing and the whole
   * subtotal; a fixed code takes off its value whatever the subtotal.
   */
  function DiscountAmount(subtotal: real, applied: Option<DiscountCode>): (r: real)
    ensures applied.None? ==> r == 0.0
    ensures applied.Some? && applied.value.kind == Fixed ==> r == applied.value.value
    ensures applied.Some? && applied.value.kind == Percentage ==> r == subtotal * (applied.value.value / 100.0)
    ensures (applied.Some? && applied.value.kind == Percentage && 0.0 <= applied.value.value <= 100.0 && subtotal >= 0.0)
      ==> 0.0 <= r <= subtotal
  {
    match applied
    case None => 0.0
    case Some(d) =>
      match d.kind
      case Percentage =>
        if 0.0 <= d.value <= 100.0 && subtotal >= 0.0 then
          ScaleWithin(subtotal, d.value / 100.0);
          subtotal * (d.value / 100.0)
        else
          subtotal * (d.value / 100.0)
      case Fixed => d.value
  }

  /** Scaling a non-negative amount by a fraction between 0 and 1 keeps it between 0 and the amount. */
  lemma ScaleWithin(amount: real, k: real)
    requires amount >= 0.0 && 0.0 <= k <= 1.0
    ensures 0.0 <= amount * k <= amount
  {
    assert amount * k <= amount * 1.0;
  }

  /** Every figure of the order summary, before display rounding. */
  datatype Quote = Quote(subtotal: real, shipping: real, discount: real, discountedSubtotal: real, tax: real, total: real)

  /** The summary's arithmetic once shipping and discount are known: tax is charged on the discounted subtotal. */
  function QuoteOf(subtotal: real, shipping: real, discount: real, taxRate: real): (q: Quote)
    ensures q.subtotal == subtotal && q.shipping == shipping && q.discount == discount
    ensures q.discountedSubtotal == subtotal - discount
    ensures q.total == (subtotal - discount) * (1.0 + taxRate / 100.0) + shipping
    ensures q.total == q.discountedSubtotal + q.shipping + q.tax
  {
    var discounted := subtotal - discount;
    var k := taxRate / 100.0;
    assert discounted * (1.0 + k) == discounted * 1.0 + discounted * k;
    Quote(subtotal, shipping, discount, discounted, discounted * k, discounted + shipping + discounted * k)
  }

  /** Lines 107-114 of the checkout page, for a cart whose total price is `subtotal`. */
  function PriceOrder(subtotal: real, items: seq<CartItem>, settings: StoreSettings, prices: seq<DeliveryPrice>,
                      selectedState: string, deliveryType: DeliveryType, applied: Option<DiscountCode>): (q: Quote)
    ensures q.subtotal == subtotal
    ensures q.shipping == Shipping(settings, prices, selectedState, deliveryType, items)
    ensures q.discount == DiscountAmount(subtotal, applied)
    ensures q.discountedSubtotal == subtotal - q.discount
    ensures q.total == (subtotal - q.discount) * (1.0 + settings.taxRate / 100.0) + q.shipping
    ensures q.total == q.discountedSubtotal + q.shipping + q.tax
  {
    QuoteOf(subtotal, Shipping(settings, prices, selectedState, deliveryType, items), DiscountAmount(subtotal, applied), settings.taxRate)
  }

  /** The tax shown in the summary: `Math.round(tax)`. */
  function DisplayTax(q: Quote): (r: int)
    ensures -0.5 < r as real - q.tax <= 0.5
  {
    Round(q.tax)
  }

  /** The total shown in the summary: `Math.round(total)`. */
  function DisplayTotal(q: Quote): (r: int)
    ensures -0.5 < r as real - q.total <= 0.5
  {
    Round(q.total)
  }

  /** Choosing another wilaya or delivery type moves the shipping and the total, never the tax. */
  lemma TaxIgnoresShipping(subtotal: real, items: seq<CartItem>, settings: StoreSettings, prices: seq<DeliveryPrice>,
                           s1: string, t1: DeliveryType, s2: string, t2: DeliveryType, applied: Option<DiscountCode>)
    ensures PriceOrder(subtotal, items, settings, prices, s1, t1, applied).tax
         == PriceOrder(subtotal, items, settings, prices, s2, t2, applied).tax
    ensures var q1 := PriceOrder(subtotal, items, settings, prices, s1, t1, applied);
            var q2 := PriceOrder(subtotal, items, settings, prices, s2, t2, applied);
            q1.total - q2.total == q1.shipping - q2.shipping
  {
  }

  /**
   * When the discounted subtotal and the shipping are whole dinars, the
   * rounded total is exactly their sum plus the rounded tax, so the
   * displayed lines add up.
   */
  lemma DisplayedLinesAddUp(subtotal: real, items: seq<CartItem>, settings: StoreSettings, prices: seq<DeliveryPrice>,
                            selectedState: string, deliveryType: DeliveryType, applied: Option<DiscountCode>, n: int)
    requires var q := PriceOrder(subtotal, items, settings, prices, selectedState, deliveryType, applied);
             q.discountedSubtotal + q.shipping == n as real
    ensures var q := PriceOrder(subtotal, items, settings, prices, selectedState, deliveryType, applied);
            DisplayTotal(q) == n + DisplayTax(q)
  {
    var q := PriceOrder(subtotal, items, settings, prices, selectedState, deliveryType, applied);
    RoundIsUnique(q.total, n + Round(q.tax));
  }

  /**
   * 2000 DA of goods weighing 1 kg, sent to Alger by home delivery with the
   * default settings and no code: 525 shipping, 380 tax, 2905 in total.
   */
  lemma AlgerOrderExample()
    ensures var items := [CartItem(1, 2000.0, 1, Some(1.0))];
            var q := PriceOrder(2000.0, items, DefaultSettings(), DefaultDeliveryPrices(), "Alger", Home, None);
            q.shipping == 525.0 && q.tax == 380.0 && q.total == 2905.0 && DisplayTotal(q) == 2905
  {
    var items := [CartItem(1, 2000.0, 1, Some(1.0))];
    assert TotalWeight(items) == 1.0;
    AlgerHomeExample();
    RoundOfInteger(2905);
  }

  /**
   * A fixed code is not capped by the subtotal. A 500 DA fixed code with no
   * minimum, added on the settings page after the built-in codes, validates
   * on a 300 DA cart, and then takes off 500. The discounted subtotal and the
   * tax are negative.
   */
  lemma FixedDiscountCanExceedSubtotal(id: string, now: int)
    ensures var c := SettingsPage.BuildDiscountCode(SettingsPage.NewDiscountForm("BIG", Fixed, 500.0, 0.0), id);
            && ValidateDiscountCode(DefaultDiscountCodes() + [c], "BIG", 300.0, now) == Some(c)
            && var q := PriceOrder(300.0, [], DefaultSettings(), DefaultDeliveryPrices(), "", Home, Some(c));
               q.discount == 500.0 && q.discountedSubtotal == -200.0 && q.tax < 0.0 && q.total == 262.0
  {
    var form := SettingsPage.NewDiscountForm("BIG", Fixed, 500.0, 0.0);
    var codes := DefaultDiscountCodes();
    forall j | 0 <= j < |codes| ensures !Eligible(codes[j], "BIG", 300.0, now) {
      assert |Lower(codes[j].code)| != |Lower("BIG")|;
    }
    SettingsPage.AddedCodeValidates(codes, form, id, "BIG", 300.0, now);
  }

  // ---------------------------------------------------------------------
  // The session

  /** The buttons that move between the three steps. */
  datatype StepButton = ContinueToPayment | BackToShipping | ReviewOrder | BackToPayment

  /** The step each button goes to. */
  function ButtonTarget(b: StepButton): int {
    match b
    case ContinueToPayment => 2
    case BackToShipping => 1
    case ReviewOrder => 3
    case BackToPayment => 2
  }

  /** Which step buttons the page renders: one under step 1, two under step 2, one under step 3. */
  predicate ButtonShown(step: int, orderPlaced: bool, b: StepButton) {
    !orderPlaced &&
    match b
    case ContinueToPayment => step == 1
    case BackToShipping => step == 2
    case ReviewOrder => step == 2
    case BackToPayment => step >= 3
  }

  /** The place-order button appears only from step 3 on. */
  predicate SubmitShown(step: int, orderPlaced: bool) {
    !orderPlaced && step >= 3
  }

  /** The code box and its apply button: rendered only with discount codes enabled and no code applied. */
  predicate ApplyShown(settings: StoreSettings, applied: Option<DiscountCode>) {
    settings.enableDiscountCodes && applied.None?
  }

  /** The applied code and its remove button: rendered only with discount codes enabled and a code applied. */
  predicate RemoveShown(settings: StoreSettings, applied: Option<DiscountCode>) {
    settings.enableDiscountCodes && applied.Some?
  }

  /**
   * With discount codes enabled the summary shows exactly one of the two
   * controls; with them disabled it shows neither, so no code can be applied
   * or removed.
   */
  lemma DiscountControlsExclusive(settings: StoreSettings, applied: Option<DiscountCode>)
    ensures !(ApplyShown(settings, applied) && RemoveShown(settings, applied))
    ensures settings.enableDiscountCodes <==> ApplyShown(settings, applied) || RemoveShown(settings, applied)
  {
  }

  /**
   * Every rendered step button leads to a neighbouring step, so clicking
   * through the page only ever moves 1→2, 2→1, 2→3 and 3→2.
   */
  lemma ShownButtonsMoveToNeighbour(step: int, b: StepButton)
    requires 1 <= step <= 3 && ButtonShown(step, false, b)
    ensures 1 <= ButtonTarget(b) <= 3
    ensures ButtonTarget(b) == step + 1 || ButtonTarget(b) == step - 1
  {
  }

  /** The form fields of the checkout page. */
  const FormFields: seq<string> :=
    ["firstName", "lastName", "email", "phone", "address", "city", "postalCode", "state",
     "cardNumber", "expiryDate", "cvv", "cardName"]

  /** Every form field, empty. */
  function InitialForm(): (m: map<string, string>)
    ensures "state" in m && m["state"] == ""
    ensures forall f :: f in m <==> f in FormFields
    ensures forall f :: f in m ==> m[f] == ""
  {
    map f | f in FormFields :: ""
  }

  /** What the page renders. */
  datatype View = Confirmation | CheckoutForm(step: int)

  class CheckoutSession {
    var step: int
    var orderPlaced: bool
    var formData: map<string, string>
    var selectedState: string
    var deliveryType: DeliveryType
    var discountCode: string
    var appliedDiscount: Option<DiscountCode>

    /** The step is one of the three, and the chosen wilaya is the form's `state` field. */
    ghost predicate Valid()
      reads this
    {
      && 1 <= step <= 3
      && "state" in formData
      && selectedState == formData["state"]
    }

    /** The session a fresh checkout page starts with. */
    constructor ()
      ensures Valid()
      ensures step == 1 && !orderPlaced
      ensures formData == InitialForm() && selectedState == ""
      ensures deliveryType == Home && discountCode == "" && appliedDiscount == None
    {
      step := 1;
      orderPlaced := false;
      formData := InitialForm();
      selectedState := "";
      deliveryType := Home;
      discountCode := "";
      appliedDiscount := None;
    }

    /** What the page renders now: only the confirmation once the order is placed. */
    function CurrentView(): (v: View)
      reads this
      ensures orderPlaced <==> v == Confirmation
      ensures !orderPlaced ==> v.step == step
    {
      if orderPlaced then Confirmation else CheckoutForm(step)
    }

    /** `handleInputChange`: sets the one named field; the `state` field also selects the wilaya. */
    method HandleInputChange(name: string, value: string)
      requires Valid()
      modifies this
      ensures Valid()
      ensures formData == old(formData)[name := value]
      ensures selectedState == if name == "state" then value else old(selectedState)
      ensures step == old(step) && orderPlaced == old(orderPlaced) && deliveryType == old(deliveryType)
      ensures discountCode == old(discountCode) && appliedDiscount == old(appliedDiscount)
    {
      formData := formData[name := value];
      if name == "state" {
        selectedState := value;
      }
    }

    /** The two delivery-type radio buttons. */
    method SetDeliveryType(t: DeliveryType)
      requires Valid()
      modifies this
      ensures Valid()
      ensures deliveryType == t
      ensures step == old(step) && orderPlaced == old(orderPlaced) && formData == old(formData)
      ensures selectedState == old(selectedState) && discountCode == old(discountCode)
      ensures appliedDiscount == old(appliedDiscount)
    {
      deliveryType := t;
    }

    /** Typing in the discount-code box. */
    method SetDiscountCode(text: string)
      requires Valid()
      modifies this
      ensures Valid()
      ensures discountCode == text
      ensures step == old(step) && orderPlaced == old(orderPlaced) && formData == old(formData)
      ensures selectedState == old(selectedState) && deliveryType == old(deliveryType)
      ensures appliedDiscount == old(appliedDiscount)
    {
      discountCode := text;
    }

    /**
     * `handleApplyDiscount` against the store's codes, for a cart worth
     * `subtotal`, at instant `now`: a blank code does nothing; otherwise
     * the trimmed code is validated and, when it validates, applied. A code
     * that does not validate leaves the applied discount as it was. The page
     * offers the button only when `ApplyShown` holds, that is with no code
     * applied; from there the result is no discount or the validated code.
     */
    method ApplyDiscount(codes: seq<DiscountCode>, subtotal: real, now: int)
      requires Valid()
      modifies this
      ensures Valid()
      ensures Trim(old(discountCode)) == [] ==> appliedDiscount == old(appliedDiscount)
      ensures Trim(old(discountCode)) != [] ==>
                var found := ValidateDiscountCode(codes, Trim(old(discountCode)), subtotal, now);
                appliedDiscount == if found.Some? then found else old(appliedDiscount)
      ensures appliedDiscount != old(appliedDiscount) ==>
                appliedDiscount.Some? && appliedDiscount.value in codes && appliedDiscount.value.isActive
      ensures old(appliedDiscount).None? ==>
                appliedDiscount.None? || appliedDiscount == ValidateDiscountCode(codes, Trim(old(discountCode)), subtotal, now)
      ensures step == old(step) && orderPlaced == old(orderPlaced) && formData == old(formData)
      ensures selectedState == old(selectedState) && deliveryType == old(deliveryType)
      ensures discountCode == old(discountCode)
    {
      var typed := Trim(discountCode);
      if typed != [] {
        var found := ValidateDiscountCode(codes, typed, subtotal, now);
        if found.Some? {
          appliedDiscount := found;
        }
      }
    }

    /** `handleRemoveDiscount`: clears both the applied discount and the typed code. */
    method RemoveDiscount()
      requires Valid()
      modifies this
      ensures Valid()
      ensures appliedDiscount == None && discountCode == ""
      ensures step == old(step) && orderPlaced == old(orderPlaced) && formData == old(formData)
      ensures selectedState == old(selectedState) && deliveryType == old(deliveryType)
    {
      appliedDiscount := None;
      discountCode := "";
    }

    /** A step button: goes to its step, unconditionally; nothing else changes. */
    method PressStepButton(b: StepButton)
      requires Valid()
      modifies this
      ensures Valid()
      ensures step == ButtonTarget(b)
      ensures orderPlaced == old(orderPlaced) && formData == old(formData)
      ensures selectedState == old(selectedState) && deliveryType == old(deliveryType)
      ensures discountCode == old(discountCode) && appliedDiscount == old(appliedDiscount)
    {
      step := ButtonTarget(b);
    }

    /**
     * `handlePlaceOrder`: marks the order placed; the page then shows only
     * the confirmation.
     */
    method PlaceOrder()
      requires Valid()
      modifies this
      ensures Valid()
      ensures orderPlaced && CurrentView() == Confirmation
      ensures step == old(step) && formData == old(formData)
      ensures selectedState == old(selectedState) && deliveryType == old(deliveryType)
      ensures discountCode == old(discountCode) && appliedDiscount == old(appliedDiscount)
    {
      orderPlaced := true;
    }
  }
}
