/**
 * The line-item editor: add a blank line, remove lines by id, edit one field
 * of the lines with an id (recomputing the line total when quantity or price
 * changes), and the running subtotal.
 */
module InvoiceItems {
  import opened InvoiceTypes
  import opened ListOps
  import Totals

  /** An edit from the item table; `Number(...)` of the input is done by the caller. */
  datatype ItemEdit =
    | SetDescription(description: string)
    | SetQuantity(quantity: real)
    | SetPrice(price: real)

  /** The blank line `addItem` appends; its id is the caller-supplied timestamp. */
  function NewItem(id: string): InvoiceItem
  {
    InvoiceItem(id, "", 1.0, 0.0, 0.0)
  }

  /** One line after an edit: quantity and price edits recompute the total from the other, old, field. */
  function ApplyEdit(item: InvoiceItem, edit: ItemEdit): InvoiceItem
  {
    match edit
    case SetDescription(d) => item.(description := d)
    case SetQuantity(q) => item.(quantity := q, total := q * item.price)
    case SetPrice(p) => item.(price := p, total := item.quantity * p)
  }

  /** What an edit does to one line, field by field, and that it re-establishes the invariant. */
  lemma ApplyEditEffect(item: InvoiceItem, edit: ItemEdit)
    ensures var r := ApplyEdit(item, edit);
      && r.id == item.id
      && (edit.SetDescription? ==>
            r.description == edit.description && r.quantity == item.quantity
            && r.price == item.price && r.total == item.total)
      && (edit.SetQuantity? ==>
            r.quantity == edit.quantity && r.price == item.price && r.description == item.description
            && r.total == edit.quantity * item.price)
      && (edit.SetPrice? ==>
            r.price == edit.price && r.quantity == item.quantity && r.description == item.description
            && r.total == item.quantity * edit.price)
      && (!edit.SetDescription? ==> Consistent(r))
      && (Consistent(item) ==> Consistent(r))
  {
  }

  function KeepOtherItem(id: string): InvoiceItem -> bool
  {
    (item: InvoiceItem) => item.id != id
  }

  /** `removeItem`: the lines whose id differs, in their order. */
  function WithoutItem(items: seq<InvoiceItem>, id: string): seq<InvoiceItem>
  {
    Filter(items, KeepOtherItem(id))
  }

  /** `updateItem`: the edit applied to every line with the id, the others untouched. */
  function UpdatedItems(items: seq<InvoiceItem>, id: string, edit: ItemEdit): seq<InvoiceItem>
  {
    seq(|items|, k requires 0 <= k < |items| =>
      if items[k].id == id then ApplyEdit(items[k], edit) else items[k])
  }

  /**
   * Removal drops exactly the lines with the id, keeps the order of the rest,
   * leaves the list alone for an unknown id, and keeps the line invariant.
   */
  lemma {:induction false} WithoutItemSpec(items: seq<InvoiceItem>, id: string)
    ensures forall x :: x in WithoutItem(items, id) <==> x in items && x.id != id
    ensures forall k :: 0 <= k < |WithoutItem(items, id)| ==> WithoutItem(items, id)[k].id != id
    ensures |WithoutItem(items, id)| <= |items|
    ensures (forall k :: 0 <= k < |items| ==> items[k].id != id) ==> WithoutItem(items, id) == items
    ensures AllConsistent(items) ==> AllConsistent(WithoutItem(items, id))
  {
    var r := WithoutItem(items, id);
    forall x
      ensures x in r <==> x in items && x.id != id
    {
      FilterMembership(items, KeepOtherItem(id), x);
    }
    FilterSound(items, KeepOtherItem(id));
    if forall k :: 0 <= k < |items| ==> items[k].id != id {
      FilterAllKept(items, KeepOtherItem(id));
    }
    if AllConsistent(items) {
      forall k | 0 <= k < |r|
        ensures Consistent(r[k])
      {
        assert r[k] in r;
        var j :| 0 <= j < |items| && items[j] == r[k];
      }
    }
  }

  /** Removing from a concatenation removes from each part: relative order is kept. */
  lemma WithoutItemAppend(a: seq<InvoiceItem>, b: seq<InvoiceItem>, id: string)
    ensures WithoutItem(a + b, id) == WithoutItem(a, id) + WithoutItem(b, id)
  {
    FilterAppend(a, b, KeepOtherItem(id));
  }

  /** Updating keeps the length and every id, touches only lines with the id, and keeps the invariant. */
  lemma UpdatedItemsSpec(items: seq<InvoiceItem>, id: string, edit: ItemEdit)
    ensures |UpdatedItems(items, id, edit)| == |items|
    ensures forall k :: 0 <= k < |items| ==> UpdatedItems(items, id, edit)[k].id == items[k].id
    ensures forall k :: 0 <= k < |items| && items[k].id != id ==> UpdatedItems(items, id, edit)[k] == items[k]
    ensures forall k :: 0 <= k < |items| && items[k].id == id ==>
      UpdatedItems(items, id, edit)[k] == ApplyEdit(items[k], edit)
    ensures AllConsistent(items) ==> AllConsistent(UpdatedItems(items, id, edit))
  {
  }

  /** A description edit never changes the subtotal. */
  lemma DescriptionEditKeepsSubtotal(items: seq<InvoiceItem>, id: string, d: string)
    ensures Totals.Subtotal(UpdatedItems(items, id, SetDescription(d))) == Totals.Subtotal(items)
  {
    Totals.SubtotalPointwise(UpdatedItems(items, id, SetDescription(d)), items);
  }

  /** Adding a blank line grows the list by one at the end, keeps the invariant and the subtotal. */
  lemma AddedItemSpec(items: seq<InvoiceItem>, id: string)
    ensures |items + [NewItem(id)]| == |items| + 1
    ensures (items + [NewItem(id)])[..|items|] == items
    ensures AllConsistent(items) ==> AllConsistent(items + [NewItem(id)])
    ensures Totals.Subtotal(items + [NewItem(id)]) == Totals.Subtotal(items)
  {
  }

  /** The item editor's state; each action reports the list it stores. */
  class ItemsEditor {
    var items: seq<InvoiceItem>

    /** Starts from the lines the caller passes; `DefaultItems()` stands for the omitted prop. */
    constructor (initialItems: seq<InvoiceItem>)
      ensures items == initialItems
    {
      items := initialItems;
    }

    method AddItem(newId: string) returns (reported: seq<InvoiceItem>)
      modifies this
      ensures items == old(items) + [NewItem(newId)]
      ensures reported == items
      ensures AllConsistent(old(items)) ==> AllConsistent(items)
      ensures Totals.Subtotal(items) == Totals.Subtotal(old(items))
    {
      AddedItemSpec(items, newId);
      var updatedItems := items + [NewItem(newId)];
      items := updatedItems;
      reported := updatedItems;
    }

    method RemoveItem(id: string) returns (reported: seq<InvoiceItem>)
      modifies this
      ensures items == WithoutItem(old(items), id)
      ensures reported == items
      ensures AllConsistent(old(items)) ==> AllConsistent(items)
    {
      WithoutItemSpec(items, id);
      var updatedItems := WithoutItem(items, id);
      items := updatedItems;
      reported := updatedItems;
    }

    method UpdateItem(id: string, edit: ItemEdit) returns (reported: seq<InvoiceItem>)
      modifies this
      ensures items == UpdatedItems(old(items), id, edit)
      ensures reported == items
      ensures AllConsistent(old(items)) ==> AllConsistent(items)
    {
      UpdatedItemsSpec(items, id, edit);
      var updatedItems := UpdatedItems(items, id, edit);
      items := updatedItems;
      reported := updatedItems;
    }

    /** The subtotal shown under the table. */
    function CalculateSubtotal(): (s: real)
      reads this
      ensures s == Totals.Subtotal(items)
      ensures (forall k :: 0 <= k < |items| ==> items[k].total >= 0.0) ==> s >= 0.0
    {
      Totals.SubtotalNonNegative(items);
      Totals.Subtotal(items)
    }
  }
}
