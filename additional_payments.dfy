/**
 * The additional-payments editor of
 * src/components/forms/nomina/components/additional-payments.tsx: a list
 * of payments edited in place, one row at a time, with either the add row
 * or one edited row open, never both.
 */
module AdditionalPayments {
  import opened Wrappers
  import opened Seqs
  import opened Payroll

  datatype PaymentItem = PaymentItem(id: int, description: string, amount: real)

  /** `total`: the sum of the amounts. */
  function Total(items: seq<PaymentItem>): (r: real)
    ensures |items| == 0 ==> r == 0.0
    decreases |items|
  {
    if |items| == 0 then 0.0 else Total(items[..|items| - 1]) + items[|items| - 1].amount
  }

  /** `items.map(({id, ...rest}) => rest)`: the items in order, without their ids. */
  function Emitted(items: seq<PaymentItem>): (r: seq<LineItem>)
    ensures |r| == |items|
    ensures forall i :: 0 <= i < |items| ==> r[i] == LineItem(items[i].description, items[i].amount)
  {
    seq(|items|, i requires 0 <= i < |items| => LineItem(items[i].description, items[i].amount))
  }

  /** The total reported and the sum of the items emitted agree. */
  lemma {:induction false} TotalIsSumOfEmitted(items: seq<PaymentItem>)
    ensures Total(items) == Sum(Emitted(items))
    decreases |items|
  {
    if |items| > 0 {
      var init := items[..|items| - 1];
      TotalIsSumOfEmitted(init);
      assert Emitted(items)[..|items| - 1] == Emitted(init);
    }
  }

  /** `parseFloat` then `!isNaN(n) && n > 0`: `parsed` is `None` for NaN. */
  predicate AcceptedAmount(parsed: Option<real>)
  {
    parsed.Some? && parsed.value > 0.0
  }

  /** `items.map(item => item.id === id ? {...item, description, amount} : item)`. */
  function Edited(items: seq<PaymentItem>, id: int, description: string, amount: real): (r: seq<PaymentItem>)
    ensures |r| == |items|
    ensures forall i :: 0 <= i < |items| ==> r[i].id == items[i].id
    ensures forall i :: 0 <= i < |items| && items[i].id == id ==> r[i] == PaymentItem(id, description, amount)
    ensures forall i :: 0 <= i < |items| && items[i].id != id ==> r[i] == items[i]
  {
    seq(|items|, i requires 0 <= i < |items| =>
      if items[i].id == id then items[i].(description := description, amount := amount) else items[i])
  }

  /** `items.filter(item => item.id !== id)`. */
  function Removed(items: seq<PaymentItem>, id: int): (r: seq<PaymentItem>)
    ensures forall x :: x in r <==> x in items && x.id != id
    ensures IsSubsequence(r, items)
  {
    Filter(items, (x: PaymentItem) => x.id != id)
  }

  /** Editing the one item with that id changes the total by the change of its amount. */
  lemma {:induction false} EditChangesTotal(items: seq<PaymentItem>, k: nat, description: string, amount: real)
    requires k < |items|
    requires forall j :: 0 <= j < |items| && j != k ==> items[j].id != items[k].id
    ensures Total(Edited(items, items[k].id, description, amount)) == Total(items) - items[k].amount + amount
    decreases |items|
  {
    var id := items[k].id;
    var r := Edited(items, id, description, amount);
    var n := |items| - 1;
    assert Total(r) == Total(r[..n]) + r[n].amount;
    assert Total(items) == Total(items[..n]) + items[n].amount;
    if k == n {
      var init := items[..|items| - 1];
      assert r[..|items| - 1] == init;
    } else {
      var init := items[..|items| - 1];
      EditChangesTotal(init, k, description, amount);
      assert r[..|items| - 1] == Edited(init, id, description, amount);
    }
  }

  /** Every stored amount is positive. */
  predicate AmountsPositive(items: seq<PaymentItem>)
  {
    forall i :: 0 <= i < |items| ==> items[i].amount > 0.0
  }

  /** With positive amounts the total is positive exactly when there is a payment. */
  lemma TotalPositive(items: seq<PaymentItem>)
    requires AmountsPositive(items)
    ensures Total(items) > 0.0 <==> |items| > 0
  {
    TotalIsSumOfEmitted(items);
    SumPositive(Emitted(items));
  }

  /** The text boxes of the two rows. */
  datatype TextBox = DescriptionBox | AmountBox | EditDescriptionBox | EditAmountBox

  class PaymentsEditor {
    var items: seq<PaymentItem>
    var isAdding: bool
    var editingId: Option<int>
    var description: string
    var amount: string
    var editDescription: string
    var editAmount: string

    /** The add row and an edited row are never open together, and every amount is positive. */
    ghost predicate Valid()
      reads this
    {
      !(isAdding && editingId.Some?) && AmountsPositive(items)
    }

    constructor ()
      ensures Valid() && items == [] && !isAdding && editingId.None?
      ensures description == "" && amount == "" && editDescription == "" && editAmount == ""
    {
      items := [];
      isAdding := false;
      editingId := None;
      description := "";
      amount := "";
      editDescription := "";
      editAmount := "";
    }

    /** What the effect reports upwards: the total and the items without ids. */
    method Report() returns (total: real, emitted: seq<LineItem>)
      requires Valid()
      ensures total == Sum(emitted) && emitted == Emitted(items)
      ensures total > 0.0 <==> |items| > 0
    {
      total := Total(items);
      emitted := Emitted(items);
      TotalIsSumOfEmitted(items);
      TotalPositive(items);
    }

    /** `handleStartAdding`: the add row opens and any edit closes. */
    method StartAdding()
      requires Valid()
      modifies this
      ensures Valid() && isAdding && editingId.None? && items == old(items)
      ensures description == old(description) && amount == old(amount)
      ensures editDescription == old(editDescription) && editAmount == old(editAmount)
    {
      isAdding := true;
      editingId := None;
    }

    /** Typing into one of the four boxes. */
    method Type(box: TextBox, text: string)
      requires Valid()
      modifies this
      ensures Valid() && items == old(items) && isAdding == old(isAdding) && editingId == old(editingId)
      ensures description == (if box == DescriptionBox then text else old(description))
      ensures amount == (if box == AmountBox then text else old(amount))
      ensures editDescription == (if box == EditDescriptionBox then text else old(editDescription))
      ensures editAmount == (if box == EditAmountBox then text else old(editAmount))
    {
      match box
      case DescriptionBox => description := text;
      case AmountBox => amount := text;
      case EditDescriptionBox => editDescription := text;
      case EditAmountBox => editAmount := text;
    }

    /**
     * `handleAddItem`, with `parse` standing for `parseFloat`: a described
     * payment of positive amount is appended, the draft cleared and the
     * add row closed; otherwise nothing changes.
     */
    method AddItem(parse: string -> Option<real>, freshId: int)
      requires Valid()
      modifies this
      ensures Valid() && editingId == old(editingId)
      ensures editDescription == old(editDescription) && editAmount == old(editAmount)
      ensures old(description) != "" && AcceptedAmount(parse(old(amount))) ==>
        items == old(items) + [PaymentItem(freshId, old(description), parse(old(amount)).value)]
        && description == "" && amount == "" && !isAdding
      ensures !(old(description) != "" && AcceptedAmount(parse(old(amount)))) ==>
        items == old(items) && description == old(description) && amount == old(amount) && isAdding == old(isAdding)
    {
      var n := parse(amount);
      if description != "" && n.Some? && n.value > 0.0 {
        items := items + [PaymentItem(freshId, description, n.value)];
        description := "";
        amount := "";
        isAdding := false;
      }
    }

    /** `handleCancelAdd`. */
    method CancelAdd()
      requires Valid()
      modifies this
      ensures Valid() && !isAdding && description == "" && amount == ""
      ensures items == old(items) && editingId == old(editingId)
      ensures editDescription == old(editDescription) && editAmount == old(editAmount)
    {
      description := "";
      amount := "";
      isAdding := false;
    }

    /**
     * `handleEditDescription` and `handleEditAmount` (they differ only in
     * which box takes the focus): the row opens on the item's values and
     * the add row closes; `format` stands for `toString`.
     */
    method StartEditing(item: PaymentItem, format: real -> string)
      requires Valid()
      modifies this
      ensures Valid() && editingId == Some(item.id) && !isAdding
      ensures editDescription == item.description && editAmount == format(item.amount)
      ensures items == old(items) && description == old(description) && amount == old(amount)
    {
      editingId := Some(item.id);
      editDescription := item.description;
      editAmount := format(item.amount);
      isAdding := false;
    }

    /**
     * `handleSaveEdit`: with a description, a positive amount and an open
     * row whose id is not 0 (the test is `editingId` truthy), that item
     * takes the new values and the row closes; otherwise nothing changes.
     */
    method SaveEdit(parse: string -> Option<real>)
      requires Valid()
      modifies this
      ensures Valid() && isAdding == old(isAdding) && description == old(description) && amount == old(amount)
      ensures var ok := old(editDescription) != "" && AcceptedAmount(parse(old(editAmount)))
                        && old(editingId).Some? && old(editingId).value != 0;
        ok ==>
          items == Edited(old(items), old(editingId).value, old(editDescription), parse(old(editAmount)).value)
          && editingId.None? && editDescription == "" && editAmount == ""
      ensures var ok := old(editDescription) != "" && AcceptedAmount(parse(old(editAmount)))
                        && old(editingId).Some? && old(editingId).value != 0;
        !ok ==>
          items == old(items) && editingId == old(editingId)
          && editDescription == old(editDescription) && editAmount == old(editAmount)
    {
      var n := parse(editAmount);
      if editDescription != "" && n.Some? && n.value > 0.0 && editingId.Some? && editingId.value != 0 {
        items := Edited(items, editingId.value, editDescription, n.value);
        editingId := None;
        editDescription := "";
        editAmount := "";
      }
    }

    /** `handleCancelEdit`. */
    method CancelEdit()
      requires Valid()
      modifies this
      ensures Valid() && editingId.None? && editDescription == "" && editAmount == ""
      ensures items == old(items) && isAdding == old(isAdding)
      ensures description == old(description) && amount == old(amount)
    {
      editingId := None;
      editDescription := "";
      editAmount := "";
    }

    /** `handleRemoveItem`: the item goes, and so does its open edit row. */
    method RemoveItem(id: int)
      requires Valid()
      modifies this
      ensures Valid() && items == Removed(old(items), id) && isAdding == old(isAdding)
      ensures editingId == (if old(editingId) == Some(id) then None else old(editingId))
      ensures description == old(description) && amount == old(amount)
      ensures editDescription == old(editDescription) && editAmount == old(editAmount)
    {
      var before := items;
      items := Removed(items, id);
      forall i | 0 <= i < |items| ensures items[i].amount > 0.0 {
        assert items[i] in before;
      }
      if editingId == Some(id) {
        editingId := None;
      }
    }
  }
}
