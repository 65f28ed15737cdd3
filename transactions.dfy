/** The transactions page: a joint load of the transaction and inventory
    lists, and a form that records a stock-in, stock-out or waste
    transaction according to the selected type. */
module Transactions {
  import opened Outcomes
  import Api
  import JsString
  import Inventory

  /** A recorded transaction as the list shows it. */
  datatype Transaction = Transaction(id: string, transactionType: string, itemName: string)

  /** The record form: four text inputs. */
  datatype TransactionForm = TransactionForm(
    inventoryId: string, quantity: string, reason: string, referenceNo: string)

  const EmptyForm := TransactionForm("", "", "", "")

  /** The request body: the form record under its field names. */
  function FormBody(f: TransactionForm): (b: Api.Body)
    ensures b.Keys == {"inventory_id", "quantity", "reason", "reference_no"}
    ensures b["inventory_id"] == f.inventoryId && b["quantity"] == f.quantity
    ensures b["reason"] == f.reason && b["reference_no"] == f.referenceNo
  {
    map["inventory_id" := f.inventoryId, "quantity" := f.quantity,
        "reason" := f.reason, "reference_no" := f.referenceNo]
  }

  const StockInType := "stock_in"
  const StockOutType := "stock_out"
  const WasteType := "waste"

  /** The three type buttons. */
  datatype TypeButton = StockInButton | StockOutButton | WasteButton

  function ButtonType(b: TypeButton): string
  {
    match b
    case StockInButton => StockInType
    case StockOutButton => StockOutType
    case WasteButton => WasteType
  }

  predicate KnownType(t: string)
  {
    t == StockInType || t == StockOutType || t == WasteType
  }

  /** The if-chain of `handleSubmit`: each known type sends its own
      endpoint, and any other value matches no branch and sends nothing. */
  function TypeEndpoint(t: string, body: Api.Body): (e: Option<Api.Endpoint>)
    ensures e == Some(Api.StockIn(body)) <==> t == StockInType
    ensures e == Some(Api.StockOut(body)) <==> t == StockOutType
    ensures e == Some(Api.RecordWaste(body)) <==> t == WasteType
    ensures e.None? <==> !KnownType(t)
  {
    if t == StockInType then Some(Api.StockIn(body))
    else if t == StockOutType then Some(Api.StockOut(body))
    else if t == WasteType then Some(Api.RecordWaste(body))
    else None
  }

  /** The list's type label: `replace('_', ' ')` changes only the first
      underscore, then the text is upper-cased. */
  function TypeLabel(t: string): (shown: string)
    ensures |shown| == |t|
    ensures forall k :: 0 <= k < |t| ==>
      shown[k] == if k == JsString.IndexOf(t, '_') then ' ' else JsString.UpperChar(t[k])
  {
    JsString.ToUpperAscii(JsString.ReplaceFirst(t, '_', ' '))
  }

  /** The label of a type read character by character: `i` is the first
      underscore, or out of range when there is none. */
  lemma LabelIs(t: string, i: int, expected: string)
    requires |expected| == |t|
    requires forall k :: 0 <= k < |t| ==> expected[k] == if k == i then ' ' else JsString.UpperChar(t[k])
    requires if 0 <= i < |t| then t[i] == '_' && '_' !in t[..i] else '_' !in t
    ensures TypeLabel(t) == expected
  {
    if 0 <= i < |t| {
      JsString.IndexOfIsFirst(t, '_', i);
    }
  }

  /** The labels of the three types the page records. */
  lemma StockInLabel()
    ensures TypeLabel(StockInType) == "STOCK IN"
  {
    LabelIs(StockInType, 5, "STOCK IN");
  }

  lemma StockOutLabel()
    ensures TypeLabel(StockOutType) == "STOCK OUT"
  {
    LabelIs(StockOutType, 5, "STOCK OUT");
  }

  lemma WasteLabel()
    ensures TypeLabel(WasteType) == "WASTE"
  {
    LabelIs(WasteType, -1, "WASTE");
  }

  /** A second underscore survives into the label. */
  lemma LaterUnderscoreKept(t: string, k: int)
    requires 0 <= k < |t| && t[k] == '_' && k != JsString.IndexOf(t, '_')
    ensures TypeLabel(t)[k] == '_'
  {
  }

  const RecordedNotice := "Transaction recorded successfully!"
  const RecordFailed := "Failed to record transaction"

  class TransactionsPage {
    var transactions: seq<Transaction>
    var inventory: seq<Inventory.Item>
    var transactionType: string
    var form: TransactionForm

    /** The selected type is always one of the three the buttons set. */
    ghost predicate Valid()
      reads this
    {
      KnownType(transactionType)
    }

    constructor ()
      ensures Valid()
      ensures transactions == [] && inventory == []
      ensures transactionType == StockInType && form == EmptyForm
    {
      transactions := [];
      inventory := [];
      transactionType := StockInType;
      form := EmptyForm;
    }

    method ChooseType(b: TypeButton)
      modifies this
      ensures Valid()
      ensures transactionType == ButtonType(b)
      ensures transactions == old(transactions) && inventory == old(inventory) && form == old(form)
    {
      transactionType := ButtonType(b);
    }

    /** The change handlers of the form's inputs. */
    method EditForm(f: TransactionForm)
      modifies this
      ensures form == f
      ensures transactions == old(transactions) && inventory == old(inventory)
      ensures transactionType == old(transactionType)
    {
      form := f;
    }

    /** `loadData`: both lists are replaced when both loads succeed, and
        neither is touched otherwise (`Promise.all` rejects as a whole). */
    method LoadData(transResult: Outcome<seq<Transaction>>, invResult: Outcome<seq<Inventory.Item>>)
      modifies this
      ensures transResult.Ok? && invResult.Ok? ==>
        transactions == transResult.payload && inventory == invResult.payload
      ensures !(transResult.Ok? && invResult.Ok?) ==>
        transactions == old(transactions) && inventory == old(inventory)
      ensures transactionType == old(transactionType) && form == old(form)
    {
      if transResult.Ok? && invResult.Ok? {
        transactions := transResult.payload;
        inventory := invResult.payload;
      }
    }

    /** `handleSubmit`. The selected type decides the one request sent. On
        success the form is emptied and both lists reloaded (the reload's
        answers are parameters); on failure the form and lists are kept and
        the server's message or the fallback is shown. An unknown type sends
        nothing and takes the success path. */
    method HandleSubmit(response: Outcome<()>,
                        reloadTrans: Outcome<seq<Transaction>>, reloadInv: Outcome<seq<Inventory.Item>>)
      returns (sent: Option<Api.Endpoint>, notice: string)
      modifies this
      ensures sent == TypeEndpoint(old(transactionType), FormBody(old(form)))
      ensures old(Valid()) ==> sent.Some?
      ensures transactionType == old(transactionType)
      ensures sent.None? || response.Ok? ==>
        && form == EmptyForm
        && (reloadTrans.Ok? && reloadInv.Ok? ==>
              transactions == reloadTrans.payload && inventory == reloadInv.payload)
        && (!(reloadTrans.Ok? && reloadInv.Ok?) ==>
              transactions == old(transactions) && inventory == old(inventory))
        && notice == RecordedNotice
      ensures sent.Some? && response.Err? ==>
        && form == old(form) && transactions == old(transactions) && inventory == old(inventory)
        && notice == ErrorText(response.serverError, RecordFailed)
    {
      sent := TypeEndpoint(transactionType, FormBody(form));
      if sent.Some? && response.Err? {
        notice := ErrorText(response.serverError, RecordFailed);
        return;
      }
      form := EmptyForm;
      LoadData(reloadTrans, reloadInv);
      notice := RecordedNotice;
    }
  }
}
