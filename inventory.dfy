/** The inventory page: the item list with its low-stock badges, the add
    form, and deletion after a confirmation dialog. Every change is followed
    by a reload of the list. */
module Inventory {
  import opened Outcomes
  import Api

  /** An inventory item as the list shows it; quantities are the backend's
      JSON numbers. */
  datatype Item = Item(id: string, itemName: string, quantity: real, reorderLevel: real)

  /** The condition for the low-stock badge. */
  predicate LowStock(item: Item)
  {
    item.quantity <= item.reorderLevel
  }

  /** The badge shown on each card of the list, in list order. */
  function LowStockBadges(items: seq<Item>): (badges: seq<bool>)
    ensures |badges| == |items|
    ensures forall k :: 0 <= k < |items| ==>
      (badges[k] <==> items[k].quantity <= items[k].reorderLevel)
  {
    if items == [] then [] else [LowStock(items[0])] + LowStockBadges(items[1..])
  }

  /** The add form: seven text inputs. */
  datatype ItemForm = ItemForm(
    itemName: string, category: string, quantity: string, unit: string,
    reorderLevel: string, unitPrice: string, supplierName: string)

  const EmptyItemForm := ItemForm("", "", "", "", "", "", "")

  /** The body of the add request: the form record under its field names. */
  function ItemFormBody(f: ItemForm): (b: Api.Body)
    ensures b.Keys == {"item_name", "category", "quantity", "unit", "reorder_level",
                       "unit_price", "supplier_name"}
    ensures b["item_name"] == f.itemName && b["category"] == f.category
    ensures b["quantity"] == f.quantity && b["unit"] == f.unit
    ensures b["reorder_level"] == f.reorderLevel && b["unit_price"] == f.unitPrice
    ensures b["supplier_name"] == f.supplierName
  {
    map["item_name" := f.itemName, "category" := f.category, "quantity" := f.quantity,
        "unit" := f.unit, "reorder_level" := f.reorderLevel, "unit_price" := f.unitPrice,
        "supplier_name" := f.supplierName]
  }

  const ItemAdded := "Item added successfully!"
  const AddFailed := "Failed to add item"
  const ItemDeleted := "Item deleted successfully!"
  const DeleteFailed := "Failed to delete item"

  class InventoryPage {
    var items: seq<Item>
    var loading: bool
    var showAddForm: bool
    var newItem: ItemForm

    constructor ()
      ensures items == [] && loading && !showAddForm && newItem == EmptyItemForm
    {
      items := [];
      loading := true;
      showAddForm := false;
      newItem := EmptyItemForm;
    }

    /** `loadInventory`: the list is replaced only by a successful load;
        loading ends either way. */
    method LoadInventory(response: Outcome<seq<Item>>)
      modifies this
      ensures items == if response.Ok? then response.payload else old(items)
      ensures !loading
      ensures showAddForm == old(showAddForm) && newItem == old(newItem)
    {
      if response.Ok? {
        items := response.payload;
      }
      loading := false;
    }

    /** The "Add New Item" button. */
    method ToggleAddForm()
      modifies this
      ensures showAddForm == !old(showAddForm)
      ensures items == old(items) && loading == old(loading) && newItem == old(newItem)
    {
      showAddForm := !showAddForm;
    }

    /** The form's "Cancel" button: it hides the form and keeps its fields. */
    method CancelAddForm()
      modifies this
      ensures !showAddForm
      ensures items == old(items) && loading == old(loading) && newItem == old(newItem)
    {
      showAddForm := false;
    }

    /** The change handlers of the form's inputs. */
    method EditNewItem(f: ItemForm)
      modifies this
      ensures newItem == f
      ensures items == old(items) && loading == old(loading) && showAddForm == old(showAddForm)
    {
      newItem := f;
    }

    /** `handleAddItem`. On success the form is hidden and emptied and the
        list is reloaded (the reload's answer is `reload`); on failure
        nothing changes and the server's message or the fallback is shown. */
    method HandleAddItem(response: Outcome<()>, reload: Outcome<seq<Item>>)
      returns (sent: Api.Endpoint, notice: string)
      modifies this
      ensures sent == Api.AddInventory(ItemFormBody(old(newItem)))
      ensures response.Ok? ==>
        && !showAddForm && newItem == EmptyItemForm
        && items == (if reload.Ok? then reload.payload else old(items)) && !loading
        && notice == ItemAdded
      ensures response.Err? ==>
        && showAddForm == old(showAddForm) && newItem == old(newItem)
        && items == old(items) && loading == old(loading)
        && notice == ErrorText(response.serverError, AddFailed)
    {
      sent := Api.AddInventory(ItemFormBody(newItem));
      if response.Ok? {
        showAddForm := false;
        newItem := EmptyItemForm;
        LoadInventory(reload);
        notice := ItemAdded;
      } else {
        notice := ErrorText(response.serverError, AddFailed);
      }
    }

    /** `handleDelete`. Without the user's confirmation nothing is sent and
        nothing changes; with it the delete request is sent, and a success
        reloads the list. */
    method HandleDelete(id: string, confirmed: bool, response: Outcome<()>, reload: Outcome<seq<Item>>)
      returns (sent: Option<Api.Endpoint>, notice: Option<string>)
      modifies this
      ensures showAddForm == old(showAddForm) && newItem == old(newItem)
      ensures !confirmed ==>
        sent == None && notice == None && items == old(items) && loading == old(loading)
      ensures confirmed ==> sent == Some(Api.DeleteInventory(id))
      ensures confirmed && response.Ok? ==>
        && items == (if reload.Ok? then reload.payload else old(items)) && !loading
        && notice == Some(ItemDeleted)
      ensures confirmed && response.Err? ==>
        && items == old(items) && loading == old(loading)
        && notice == Some(ErrorText(response.serverError, DeleteFailed))
    {
      if !confirmed {
        return None, None;
      }
      sent := Some(Api.DeleteInventory(id));
      if response.Ok? {
        LoadInventory(reload);
        notice := Some(ItemDeleted);
      } else {
        notice := Some(ErrorText(response.serverError, DeleteFailed));
      }
    }
  }
}
