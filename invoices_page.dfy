/** The invoice list page: the cells of one invoice row (short id, item
    preview, linked order) and the action offered for it. */
module InvoicesPage {
  import opened Base
  import opened Records

  const Ellipsis := "..."
  const PoCreatedNote := "PO created"

  // ---- the action column ----

  /** The action cell: the Generate PO button (busy while this invoice is
      being automated), or a note. */
  datatype ActionCell = GenerateButton(busy: bool) | Note(text: string)

  /** The action cell of `inv` while `automating` holds the id being
      automated, if any: the button exactly when the invoice is unprocessed
      or failed (`canGenerate`), otherwise "PO created" for a processed
      invoice and the raw status for any other. */
  function Action(inv: Invoice, automating: Option<string>): (c: ActionCell)
    ensures c.GenerateButton? <==> inv.status == Unprocessed || inv.status == Failed
    ensures c.GenerateButton? ==> (c.busy <==> automating == Some(inv.id))
    ensures c.Note? && inv.status == Processed ==> c.text == PoCreatedNote
    ensures c.Note? && inv.status != Processed ==> c.text == inv.status
  {
    var canGenerate := inv.status == Unprocessed || inv.status == Failed;
    if canGenerate then GenerateButton(automating == Some(inv.id))
    else Note(if inv.status == Processed then PoCreatedNote else inv.status)
  }

  /** At most one row shows a busy button when the ids are distinct. */
  lemma OneBusyRow(invoices: seq<Invoice>, automating: Option<string>, i: int, j: int)
    requires 0 <= i < |invoices| && 0 <= j < |invoices| && i != j
    requires invoices[i].id != invoices[j].id
    ensures !(Action(invoices[i], automating) == GenerateButton(true)
              && Action(invoices[j], automating) == GenerateButton(true))
  {
  }

  // ---- the cells ----

  /** `id.slice(0, 8)` followed by "...". */
  function ShortId(id: string): (c: string)
    ensures |c| == Min(8, |id|) + 3
    ensures c[..|c| - 3] == id[..Min(8, |id|)] && c[|c| - 3..] == Ellipsis
  {
    var c := Prefix(id, 8) + Ellipsis;
    assert c[..|c| - 3] == Prefix(id, 8);
    c
  }

  /** Ids of at most eight characters are told apart by their short form;
      longer ids that share their first eight characters are not. */
  lemma ShortIdDistinguishes(a: string, b: string)
    ensures |a| <= 8 && |b| <= 8 && a != b ==> ShortId(a) != ShortId(b)
    ensures |a| >= 8 && |b| >= 8 && a[..8] == b[..8] ==> ShortId(a) == ShortId(b)
  {
    if |a| <= 8 && |b| <= 8 && ShortId(a) == ShortId(b) {
      var ca, cb := ShortId(a), ShortId(b);
      assert a == ca[..|ca| - 3] && b == cb[..|cb| - 3];
    }
  }

  /** The linked-order cell: a dash (`None`) when the invoice has no linked
      order id, or an empty one; otherwise the short form of the id. */
  function LinkedCell(linkedPOId: Option<string>): (c: Option<string>)
    ensures c.None? <==> linkedPOId.None? || linkedPOId.value == ""
    ensures c.Some? ==> c.value == ShortId(linkedPOId.value)
  {
    if linkedPOId.Some? && linkedPOId.value != "" then Some(ShortId(linkedPOId.value)) else None
  }

  /** A generated invoice's row says "PO created" exactly when it shows a
      linked order, and offers the Generate PO button otherwise. */
  lemma GeneratedInvoiceRow(inv: Invoice, automating: Option<string>)
    requires inv.status == (if inv.linkedPOId.Some? && inv.linkedPOId.value != "" then Processed else Unprocessed)
    ensures LinkedCell(inv.linkedPOId).Some? <==> Action(inv, automating) == Note(PoCreatedNote)
    ensures LinkedCell(inv.linkedPOId).None? <==> Action(inv, automating).GenerateButton?
  {
  }

  /** The item preview: the names of the first two items, and whether "..."
      follows them. */
  datatype Preview = Preview(names: seq<string>, more: bool)

  /** `items.slice(0, 2).map((i) => i.name)` and `items.length > 2`. */
  function ItemsPreview(items: seq<LineItem>): (p: Preview)
    ensures |p.names| == Min(2, |items|)
    ensures forall i :: 0 <= i < |p.names| ==> p.names[i] == items[i].name
    ensures p.more <==> |items| > 2
  {
    var shown := Prefix(items, 2);
    Preview(seq(|shown|, i requires 0 <= i < |shown| => shown[i].name), |items| > 2)
  }

  /** A preview without "..." names every item. */
  lemma PreviewComplete(items: seq<LineItem>)
    ensures !ItemsPreview(items).more ==>
              |ItemsPreview(items).names| == |items|
              && forall i :: 0 <= i < |items| ==> items[i].name in ItemsPreview(items).names
  {
    var p := ItemsPreview(items);
    if !p.more {
      forall i | 0 <= i < |items|
        ensures items[i].name in p.names
      {
        assert p.names[i] == items[i].name;
      }
    }
  }

  /** The preview of malformed line items is empty; the preview of stored
      items is the preview of the items written. */
  lemma PreviewOfStored(items: seq<LineItem>)
    ensures ItemsPreview(ParseItems(Malformed)) == Preview([], false)
    ensures ItemsPreview(ParseItems(ItemsText(items))) == ItemsPreview(items)
  {
    ParseItemsText(items);
  }
}
