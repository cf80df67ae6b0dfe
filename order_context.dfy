/** The order wizard of context/OrderContext.tsx: category, then model, then
    vendor offer, then quantity, with the model and vendor lists fetched as
    the selections change.

    The provider's eleven `useState` fields are the fields of
    `OrderProvider`. Its three `useEffect`s are the `Run...Effect` methods;
    a setter runs, synchronously, every effect whose dependencies it changed,
    in the order React would (an unchanged value is a bail-out: no effect
    runs). A fetch is split in two events: the start, inside the effect that
    issues it (returned as a `FetchRequest`), and the completion, a separate
    method that writes its result unconditionally, whichever selection is
    current by then. */
module OrderContext {
  import opened Common
  import opened MockDatabase

  datatype Category = Display | Battery

  function CategoryName(c: Category): string {
    match c
    case Display => "Display"
    case Battery => "Battery"
  }

  const ModelsErrorMessage := "Failed to load models. Please try again."
  const VendorsErrorMessage := "Failed to load vendors. Please try again."

  /** A catalog call started by an effect: `getModelsByCategory(category)` or
      `getVendorsByModel(modelId, category)`; the category of a vendor fetch
      is whatever is selected when the model changes, possibly none. */
  datatype FetchRequest = FetchModels(category: Category) | FetchVendors(modelId: int, forCategory: Option<Category>)

  /** All provider state at once, for stating what a method leaves unchanged. */
  datatype OrderState = OrderState(
    selectedCategory: Option<Category>,
    models: seq<Model>, loadingModels: bool, errorModels: Option<string>,
    selectedModel: Option<Model>,
    vendors: seq<Offer>, loadingVendors: bool, errorVendors: Option<string>,
    selectedVendor: Option<Offer>,
    quantity: int, totalPrice: int)

  /** What the total effect stores: unit price times quantity, or 0 without a vendor. */
  function TotalPrice(vendor: Option<Offer>, quantity: int): (total: int)
    ensures vendor.None? ==> total == 0
    ensures vendor.Some? ==> total == vendor.value.product.price * quantity
  {
    match vendor
    case None => 0
    case Some(v) => v.product.price * quantity
  }

  class OrderProvider {
    var selectedCategory: Option<Category>
    var models: seq<Model>
    var loadingModels: bool
    var errorModels: Option<string>
    var selectedModel: Option<Model>
    var vendors: seq<Offer>
    var loadingVendors: bool
    var errorVendors: Option<string>
    var selectedVendor: Option<Offer>
    var quantity: int
    var totalPrice: int

    ghost function State(): OrderState
      reads this
    {
      OrderState(selectedCategory, models, loadingModels, errorModels, selectedModel,
                 vendors, loadingVendors, errorVendors, selectedVendor, quantity, totalPrice)
    }

    /** Between events the total effect has always caught up with its inputs. */
    ghost predicate Valid()
      reads this
    {
      totalPrice == TotalPrice(selectedVendor, quantity)
    }

    /** The initial `useState` values; the effects that run on mount change nothing. */
    constructor ()
      ensures Valid()
      ensures State() == OrderState(None, [], false, None, None, [], false, None, None, 1, 0)
    {
      selectedCategory := None;
      models := [];
      loadingModels := false;
      errorModels := None;
      selectedModel := None;
      vendors := [];
      loadingVendors := false;
      errorVendors := None;
      selectedVendor := None;
      quantity := 1;
      totalPrice := 0;
    }

    /** The start of `fetchModels`: loading on, error cleared, list kept. */
    method StartModelsFetch(c: Category) returns (request: FetchRequest)
      modifies this
      ensures request == FetchModels(c)
      ensures State() == old(State()).(loadingModels := true, errorModels := None)
    {
      loadingModels := true;
      errorModels := None;
      request := FetchModels(c);
    }

    /** The start of `fetchVendors`. */
    method StartVendorsFetch(modelId: int, c: Option<Category>) returns (request: FetchRequest)
      modifies this
      ensures request == FetchVendors(modelId, c)
      ensures State() == old(State()).(loadingVendors := true, errorVendors := None)
    {
      loadingVendors := true;
      errorVendors := None;
      request := FetchVendors(modelId, c);
    }

    /** The effect on `[selectedCategory]`: fetch the models of a category or
        empty the list, then clear the model and vendor and reset the quantity. */
    method RunCategoryEffect() returns (request: Option<FetchRequest>)
      modifies this
      ensures selectedCategory.Some? ==>
                request == Some(FetchModels(selectedCategory.value)) &&
                State() == old(State()).(loadingModels := true, errorModels := None,
                                         selectedModel := None, selectedVendor := None, quantity := 1)
      ensures selectedCategory.None? ==>
                request == None &&
                State() == old(State()).(models := [],
                                         selectedModel := None, selectedVendor := None, quantity := 1)
    {
      if selectedCategory.Some? {
        var r := StartModelsFetch(selectedCategory.value);
        request := Some(r);
      } else {
        models := [];
        request := None;
      }
      selectedModel := None;
      selectedVendor := None;
      quantity := 1;
    }

    /** The effect on `[selectedModel]`: fetch the offers for the model and the
        current category or empty the list, then clear the vendor. */
    method RunModelEffect() returns (request: Option<FetchRequest>)
      modifies this
      ensures selectedModel.Some? ==>
                request == Some(FetchVendors(selectedModel.value.id, selectedCategory)) &&
                State() == old(State()).(loadingVendors := true, errorVendors := None, selectedVendor := None)
      ensures selectedModel.None? ==>
                request == None &&
                State() == old(State()).(vendors := [], selectedVendor := None)
    {
      if selectedModel.Some? {
        var r := StartVendorsFetch(selectedModel.value.id, selectedCategory);
        request := Some(r);
      } else {
        vendors := [];
        request := None;
      }
      selectedVendor := None;
    }

    /** The effect on `[selectedVendor, quantity]`. */
    method RunTotalEffect()
      modifies this
      ensures Valid()
      ensures State() == old(State()).(totalPrice := TotalPrice(selectedVendor, quantity))
    {
      totalPrice := TotalPrice(selectedVendor, quantity);
    }

    /** `setSelectedCategory` with its cascade. A new category clears the model
        and vendor, resets the quantity to 1 and the total to 0; a category
        starts a model fetch, none empties the model list; the vendor list is
        emptied only if a model was selected (the model effect then runs). */
    method SetSelectedCategory(c: Option<Category>) returns (request: Option<FetchRequest>)
      requires Valid()
      modifies this
      ensures Valid()
      ensures c == old(selectedCategory) ==> request == None && State() == old(State())
      ensures c != old(selectedCategory) ==>
                request == (if c.Some? then Some(FetchModels(c.value)) else None) &&
                State() == old(State()).(
                  selectedCategory := c,
                  models := if c.Some? then old(models) else [],
                  loadingModels := if c.Some? then true else old(loadingModels),
                  errorModels := if c.Some? then None else old(errorModels),
                  selectedModel := None,
                  vendors := if old(selectedModel).Some? then [] else old(vendors),
                  selectedVendor := None,
                  quantity := 1,
                  totalPrice := 0)
    {
      if c == selectedCategory {
        request := None;
        return;
      }
      var model0, vendor0, quantity0 := selectedModel, selectedVendor, quantity;
      selectedCategory := c;
      request := RunCategoryEffect();
      if selectedModel != model0 {
        var _ := RunModelEffect();
      }
      if selectedVendor != vendor0 || quantity != quantity0 {
        RunTotalEffect();
      }
    }

    /** `setSelectedModel` with its cascade. A new model clears the vendor and
        so the total; a model starts a vendor fetch for (model id, current
        category), none empties the vendor list. The quantity is kept. */
    method SetSelectedModel(m: Option<Model>) returns (request: Option<FetchRequest>)
      requires Valid()
      modifies this
      ensures Valid()
      ensures m == old(selectedModel) ==> request == None && State() == old(State())
      ensures m != old(selectedModel) ==>
                request == (if m.Some? then Some(FetchVendors(m.value.id, selectedCategory)) else None) &&
                State() == old(State()).(
                  selectedModel := m,
                  vendors := if m.Some? then old(vendors) else [],
                  loadingVendors := if m.Some? then true else old(loadingVendors),
                  errorVendors := if m.Some? then None else old(errorVendors),
                  selectedVendor := None,
                  totalPrice := 0)
    {
      if m == selectedModel {
        request := None;
        return;
      }
      var vendor0 := selectedVendor;
      selectedModel := m;
      request := RunModelEffect();
      if selectedVendor != vendor0 {
        RunTotalEffect();
      }
    }

    /** `setSelectedVendor`: the total follows the new vendor's price. */
    method SetSelectedVendor(v: Option<Offer>)
      requires Valid()
      modifies this
      ensures Valid()
      ensures State() == old(State()).(selectedVendor := v, totalPrice := TotalPrice(v, quantity))
    {
      if v != selectedVendor {
        selectedVendor := v;
        RunTotalEffect();
      }
    }

    /** `setQuantity` as the context exposes it: the argument is stored as it
        is, without clamping, and the total follows. */
    method SetQuantity(q: int)
      requires Valid()
      modifies this
      ensures Valid()
      ensures State() == old(State()).(quantity := q, totalPrice := TotalPrice(selectedVendor, q))
    {
      if q != quantity {
        quantity := q;
        RunTotalEffect();
      }
    }

    /** The end of `fetchModels`: the data replaces the list, or the fixed
        message is set and the previous list stays; loading ends either way. */
    method CompleteModelsFetch(result: Outcome<seq<Model>>)
      modifies this
      ensures result.Succeeded? ==> State() == old(State()).(models := result.value, loadingModels := false)
      ensures result.Failed? ==>
                State() == old(State()).(errorModels := Some(ModelsErrorMessage), loadingModels := false)
    {
      if result.Succeeded? {
        models := result.value;
      } else {
        errorModels := Some(ModelsErrorMessage);
      }
      loadingModels := false;
    }

    /** The end of `fetchVendors`, with its own message. */
    method CompleteVendorsFetch(result: Outcome<seq<Offer>>)
      modifies this
      ensures result.Succeeded? ==> State() == old(State()).(vendors := result.value, loadingVendors := false)
      ensures result.Failed? ==>
                State() == old(State()).(errorVendors := Some(VendorsErrorMessage), loadingVendors := false)
    {
      if result.Succeeded? {
        vendors := result.value;
      } else {
        errorVendors := Some(VendorsErrorMessage);
      }
      loadingVendors := false;
    }

    /** `resetOrder`: the four setters are batched, then the effects whose
        dependencies changed run. No fetch is started. */
    method ResetOrder()
      requires Valid()
      modifies this
      ensures Valid()
      ensures State() == old(State()).(
                selectedCategory := None,
                models := if old(selectedCategory).Some? then [] else old(models),
                selectedModel := None,
                vendors := if old(selectedModel).Some? then [] else old(vendors),
                selectedVendor := None,
                quantity := 1,
                totalPrice := 0)
    {
      var category0, model0, vendor0, quantity0 := selectedCategory, selectedModel, selectedVendor, quantity;
      selectedCategory, selectedModel, selectedVendor, quantity := None, None, None, 1;
      if selectedCategory != category0 {
        var _ := RunCategoryEffect();
      }
      if selectedModel != model0 {
        var _ := RunModelEffect();
      }
      if selectedVendor != vendor0 || quantity != quantity0 {
        RunTotalEffect();
      }
    }

    /** `placeOrder`: `false` at once without a vendor and a model, otherwise
        `true` after the simulated delay; no order state changes. */
    method PlaceOrder() returns (placed: bool)
      ensures placed <==> selectedVendor.Some? && selectedModel.Some?
    {
      if selectedVendor.None? || selectedModel.None? {
        return false;
      }
      placed := true;
    }
  }

  /** `useOrder` */
  function UseOrder(ctx: Option<OrderProvider>): (r: Result<OrderProvider, string>)
    ensures r.Ok? <==> ctx.Some?
    ensures r.Err? ==> r.error == "useOrder must be used within an OrderProvider"
  {
    RequireProvider(ctx, "useOrder must be used within an OrderProvider")
  }

  /** Two category switches in a row, with the first fetch answering last:
      the Display models end up listed under the Battery category, because a
      completion is not checked against the selection that started it. */
  method StaleModelsFetchWins() returns (category: Option<Category>, shown: seq<Model>, loading: bool)
    ensures category == Some(Battery)
    ensures shown == MockModels(Str("Display")) && shown != MockModels(Str("Battery"))
    ensures !loading
  {
    var order := new OrderProvider();
    var displayFetch := order.SetSelectedCategory(Some(Display));
    var batteryFetch := order.SetSelectedCategory(Some(Battery));
    order.CompleteModelsFetch(Succeeded(MockModels(Str("Battery"))));
    order.CompleteModelsFetch(Succeeded(MockModels(Str("Display"))));
    category, shown, loading := order.selectedCategory, order.models, order.loadingModels;
    assert shown[0].id == 1 != MockModels(Str("Battery"))[0].id;
  }

  /** A whole order against the mock catalog: display part for the first
      model, first offer (the most expensive grade, 120), quantity 3. */
  method DisplayOrderScenario(pick: nat -> VendorIndex)
    returns (total: int, placed: bool, quantityAfterReset: int, totalAfterReset: int)
    ensures total == 360 && placed
    ensures quantityAfterReset == 1 && totalAfterReset == 0
  {
    var order := new OrderProvider();
    var r1 := order.SetSelectedCategory(Some(Display));
    order.CompleteModelsFetch(Succeeded(MockModels(Str("Display"))));
    var r2 := order.SetSelectedModel(Some(order.models[0]));
    assert r2 == Some(FetchVendors(1, Some(Display)));
    order.CompleteVendorsFetch(Succeeded(MockVendors(Num(1), Str(CategoryName(Display)), pick)));
    order.SetSelectedVendor(Some(order.vendors[0]));
    order.SetQuantity(3);
    total := order.totalPrice;
    placed := order.PlaceOrder();
    order.ResetOrder();
    quantityAfterReset, totalAfterReset := order.quantity, order.totalPrice;
  }
}
