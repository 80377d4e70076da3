/**
 * The admin settings page: the new-discount form with its guard and
 * normalisation, the per-code status toggle and delete buttons, the tax-rate
 * field and the delivery-price preview.
 */
module SettingsPage {
  import opened Wrappers
  import opened Lists
  import opened Text
  import opened Store

  /** The new-discount form; `value` and `minOrderAmount` are the numbers typed in. */
  datatype NewDiscountForm = NewDiscountForm(code: string, kind: DiscountType, value: real, minOrderAmount: real)

  /** The form as the page opens it and as it resets after an add. */
  const EmptyDiscountForm := NewDiscountForm("", Percentage, 0.0, 0.0)

  /** The add button does something only with a code and a positive value. */
  predicate AcceptsDiscount(form: NewDiscountForm) {
    form.code != "" && form.value > 0.0
  }

  /**
   * The code record the add button stores, with identifier `id` (the clock
   * reading as text): code upper-cased, active, no expiry, and a zero
   * minimum stored as no minimum.
   */
  function BuildDiscountCode(form: NewDiscountForm, id: string): (c: DiscountCode)
    ensures c.id == id && c.kind == form.kind && c.value == form.value
    ensures Lower(c.code) == Lower(form.code)
    ensures forall i :: 0 <= i < |c.code| ==> !('a' <= c.code[i] <= 'z')
    ensures c.isActive && c.expiryDate.None?
    ensures c.minOrderAmount.None? <==> form.minOrderAmount == 0.0
    ensures c.minOrderAmount.Some? ==> c.minOrderAmount.value == form.minOrderAmount
  {
    LowerOfUpper(form.code);
    DiscountCode(id, Upper(form.code), form.kind, form.value, true, None,
                 if form.minOrderAmount == 0.0 then None else Some(form.minOrderAmount))
  }

  /**
   * A freshly added code validates when typed in any letter case for an
   * order that meets its minimum, unless an earlier entry of the list
   * matches first.
   */
  lemma AddedCodeValidates(codes: seq<DiscountCode>, form: NewDiscountForm, id: string,
                           typed: string, orderAmount: real, now: int)
    requires Lower(typed) == Lower(form.code)
    requires orderAmount >= form.minOrderAmount
    requires forall j :: 0 <= j < |codes| ==> !Eligible(codes[j], typed, orderAmount, now)
    ensures ValidateDiscountCode(codes + [BuildDiscountCode(form, id)], typed, orderAmount, now)
         == Some(BuildDiscountCode(form, id))
  {
    var all := codes + [BuildDiscountCode(form, id)];
    ValidateReturnsFirstMatch(all, typed, orderAmount, now, |codes|);
  }

  /** The status button's update: the opposite of the clicked entry's current status. */
  function TogglePatch(c: DiscountCode): DiscountPatch {
    NoDiscountChange.(isActive := Some(!c.isActive))
  }

  /** No two entries share an id. */
  predicate UniqueIds(codes: seq<DiscountCode>) {
    forall i, j :: 0 <= i < j < |codes| ==> codes[i].id != codes[j].id
  }

  /** With unique ids, the status button flips the clicked entry and no other. */
  lemma ToggleFlipsOnlyThatCode(codes: seq<DiscountCode>, i: nat)
    requires i < |codes| && UniqueIds(codes)
    ensures var r := UpdateCodes(codes, codes[i].id, TogglePatch(codes[i]));
            |r| == |codes| && r[i] == codes[i].(isActive := !codes[i].isActive)
            && forall j :: 0 <= j < |codes| && j != i ==> r[j] == codes[j]
  {
  }

  /** With unique ids, clicking the status button twice restores the list. */
  lemma ToggleTwiceRestores(codes: seq<DiscountCode>, i: nat)
    requires i < |codes| && UniqueIds(codes)
    ensures var once := UpdateCodes(codes, codes[i].id, TogglePatch(codes[i]));
            UpdateCodes(once, once[i].id, TogglePatch(once[i])) == codes
  {
    var once := UpdateCodes(codes, codes[i].id, TogglePatch(codes[i]));
    ToggleFlipsOnlyThatCode(codes, i);
    assert UniqueIds(once) by {
      forall a, b | 0 <= a < b < |once| ensures once[a].id != once[b].id {
        assert once[a].id == codes[a].id && once[b].id == codes[b].id;
      }
    }
    ToggleFlipsOnlyThatCode(once, i);
  }

  /** The delivery tab previews the first ten rows of the table. */
  function VisibleDeliveryRows(prices: seq<DeliveryPrice>): (rows: seq<DeliveryPrice>)
    ensures rows <= prices
    ensures |rows| <= 10
    ensures |prices| >= 10 ==> |rows| == 10
    ensures |prices| < 10 ==> rows == prices
  {
    if |prices| <= 10 then prices else prices[..10]
  }

  /** With the built-in table, ten of the 48 wilayas are shown, starting with Adrar. */
  lemma DefaultTableShowsTen()
    ensures |DefaultDeliveryPrices()| == 48
    ensures |VisibleDeliveryRows(DefaultDeliveryPrices())| == 10
    ensures VisibleDeliveryRows(DefaultDeliveryPrices())[0].state == "Adrar"
  {
  }

  class SettingsPage {
    const store: StoreService
    var newDiscount: NewDiscountForm
    var isAddingDiscount: bool

    /** The page as it opens over the store service. */
    constructor (store: StoreService)
      ensures this.store == store
      ensures newDiscount == EmptyDiscountForm && !isAddingDiscount
    {
      this.store := store;
      newDiscount := EmptyDiscountForm;
      isAddingDiscount := false;
    }

    /** Opening the add panel. */
    method OpenAddPanel()
      modifies this
      ensures isAddingDiscount && newDiscount == old(newDiscount)
    {
      isAddingDiscount := true;
    }

    /** The panel's "Annuler" button: closes the panel and keeps what was typed. */
    method CancelAddPanel()
      modifies this
      ensures !isAddingDiscount && newDiscount == old(newDiscount)
    {
      isAddingDiscount := false;
    }

    /** Typing into the add form. */
    method EditForm(form: NewDiscountForm)
      modifies this
      ensures newDiscount == form && isAddingDiscount == old(isAddingDiscount)
    {
      newDiscount := form;
    }

    /**
     * `handleAddDiscount` with the clock reading `id`: a form with a code
     * and a positive value appends the built code, resets the form and
     * closes the panel; any other form changes nothing.
     */
    method HandleAddDiscount(id: string)
      modifies this, store
      ensures AcceptsDiscount(old(newDiscount)) ==>
                && store.discountCodes == old(store.discountCodes) + [BuildDiscountCode(old(newDiscount), id)]
                && newDiscount == EmptyDiscountForm && !isAddingDiscount
      ensures !AcceptsDiscount(old(newDiscount)) ==>
                && store.discountCodes == old(store.discountCodes)
                && newDiscount == old(newDiscount) && isAddingDiscount == old(isAddingDiscount)
      ensures store.settings == old(store.settings) && store.deliveryPrices == old(store.deliveryPrices)
    {
      if AcceptsDiscount(newDiscount) {
        store.AddDiscountCode(BuildDiscountCode(newDiscount, id));
        newDiscount := EmptyDiscountForm;
        isAddingDiscount := false;
      }
    }

    /** The status button of entry `i`. */
    method ToggleDiscount(i: nat)
      requires i < |store.discountCodes|
      modifies store
      ensures store.discountCodes
           == UpdateCodes(old(store.discountCodes), old(store.discountCodes[i].id), TogglePatch(old(store.discountCodes[i])))
      ensures store.settings == old(store.settings) && store.deliveryPrices == old(store.deliveryPrices)
    {
      var c := store.discountCodes[i];
      store.UpdateDiscountCode(c.id, TogglePatch(c));
    }

    /** The delete button of entry `i`. */
    method DeleteDiscount(i: nat)
      requires i < |store.discountCodes|
      modifies store
      ensures store.discountCodes == DeleteCodes(old(store.discountCodes), old(store.discountCodes[i].id))
      ensures store.settings == old(store.settings) && store.deliveryPrices == old(store.deliveryPrices)
    {
      store.DeleteDiscountCode(store.discountCodes[i].id);
    }

    /**
     * The tax-rate field, given the number `parseFloat` read from it: stored
     * as it is, with no range check; every other setting is kept.
     */
    method SetTaxRate(parsed: real)
      modifies store
      ensures store.settings == old(store.settings).(taxRate := parsed)
      ensures store.deliveryPrices == old(store.deliveryPrices) && store.discountCodes == old(store.discountCodes)
    {
      store.UpdateSettings(TaxRateOnly(parsed));
      UpdateTaxRateOnly(old(store.settings), parsed);
    }
  }
}
