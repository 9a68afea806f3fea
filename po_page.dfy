/** The purchase-order page's live list: how each message of the update
    stream changes the listed orders, the order open in the detail view and
    the connection flag. */
module PoPage {
  import opened Base
  import opened Records

  /** An order as the page holds it: the record and, when it came from the
      listing endpoint, the log entries included with it (`activityLogs?`). */
  datatype ListedPo = ListedPo(po: PurchaseOrder, activityLogs: Option<seq<ActivityLog>>)

  /** The page state the stream handlers update. */
  datatype PageState = PageState(purchaseOrders: seq<ListedPo>, selected: Option<ListedPo>, connected: bool)

  /** A message of the stream, by its `type`, with the data it carries. The
      records sent on the stream carry no log entries. */
  datatype Message =
    | Connected
    | Ping
    | PoCreated(po: PurchaseOrder)
    | PoUpdated(po: PurchaseOrder)
    | PoStatusChanged(purchaseOrder: PurchaseOrder, from: string, to: string)

  /** The ids of the listed orders, in list order. */
  function Ids(list: seq<ListedPo>): (r: seq<string>)
    ensures |r| == |list|
    ensures forall i :: 0 <= i < |list| ==> r[i] == list[i].po.id
  {
    if list == [] then [] else [list[0].po.id] + Ids(list[1..])
  }

  /** `prev.map(po => po.id === updated.id ? updated : po)`: every order
      with the updated id becomes the update (without included logs), every
      other order stays as it was, and the list keeps its length. */
  function ReplaceById(list: seq<ListedPo>, updated: PurchaseOrder): (r: seq<ListedPo>)
    ensures |r| == |list|
    ensures forall i :: 0 <= i < |list| && list[i].po.id == updated.id ==> r[i] == ListedPo(updated, None)
    ensures forall i :: 0 <= i < |list| && list[i].po.id != updated.id ==> r[i] == list[i]
  {
    if list == [] then []
    else
      var head := if list[0].po.id == updated.id then ListedPo(updated, None) else list[0];
      [head] + ReplaceById(list[1..], updated)
  }

  /** `prev?.id === updated.id ? { ...prev, ...updated } : prev`: the open
      order takes the update's fields, keeping its own included logs, only
      when the ids match. */
  function MergeSelected(selected: Option<ListedPo>, updated: PurchaseOrder): (r: Option<ListedPo>)
    ensures r.Some? <==> selected.Some?
    ensures r.Some? ==> r.value.activityLogs == selected.value.activityLogs
    ensures r.Some? && selected.value.po.id == updated.id ==> r.value.po == updated
    ensures r.Some? && selected.value.po.id != updated.id ==> r == selected
  {
    if selected.Some? && selected.value.po.id == updated.id
    then Some(ListedPo(updated, selected.value.activityLogs))
    else selected
  }

  /** The order an update message carries: `data.purchaseOrder` for a
      status change, `data` itself otherwise. */
  function UpdatedPo(m: Message): PurchaseOrder
    requires m.PoUpdated? || m.PoStatusChanged?
  {
    if m.PoStatusChanged? then m.purchaseOrder else m.po
  }

  /** The `onmessage` handler; a message of any other type (`ping`) changes nothing. */
  function OnMessage(s: PageState, m: Message): (r: PageState)
    ensures m.Connected? ==> r.connected
    ensures !m.Connected? ==> r.connected == s.connected
    ensures m.Connected? || m.Ping? ==> r.purchaseOrders == s.purchaseOrders && r.selected == s.selected
    ensures m.PoCreated? ==> r.selected == s.selected
  {
    match m
    case Connected => s.(connected := true)
    case Ping => s
    case PoCreated(po) => s.(purchaseOrders := [ListedPo(po, None)] + s.purchaseOrders)
    case _ =>
      var updated := UpdatedPo(m);
      s.(purchaseOrders := ReplaceById(s.purchaseOrders, updated),
         selected := MergeSelected(s.selected, updated))
  }

  /** The `onerror` handler. */
  function OnError(s: PageState): (r: PageState)
    ensures !r.connected
    ensures r.purchaseOrders == s.purchaseOrders && r.selected == s.selected
  {
    s.(connected := false)
  }

  /** A created order is put in front of the list, which otherwise stays as it was. */
  lemma CreatedPrepends(s: PageState, po: PurchaseOrder)
    ensures var r := OnMessage(s, PoCreated(po));
            && |r.purchaseOrders| == |s.purchaseOrders| + 1
            && r.purchaseOrders[0].po == po
            && r.purchaseOrders[1..] == s.purchaseOrders
            && Ids(r.purchaseOrders) == [po.id] + Ids(s.purchaseOrders)
  {
    var r := OnMessage(s, PoCreated(po));
    assert r.purchaseOrders[1..] == s.purchaseOrders;
    assert Ids(r.purchaseOrders) == [po.id] + Ids(s.purchaseOrders);
  }

  /** An update keeps the list's ids in place; the orders with the updated
      id now hold the update, every other order is unchanged. */
  lemma UpdateReplacesById(s: PageState, m: Message)
    requires m.PoUpdated? || m.PoStatusChanged?
    ensures var r := OnMessage(s, m);
            && Ids(r.purchaseOrders) == Ids(s.purchaseOrders)
            && (forall i :: 0 <= i < |s.purchaseOrders| ==>
                  r.purchaseOrders[i].po
                  == (if s.purchaseOrders[i].po.id == UpdatedPo(m).id then UpdatedPo(m) else s.purchaseOrders[i].po))
  {
    var r := OnMessage(s, m);
    assert Ids(r.purchaseOrders) == Ids(s.purchaseOrders);
  }

  /** An update for an order that is not listed leaves the list as it is. */
  lemma UpdateOfUnlisted(s: PageState, m: Message)
    requires m.PoUpdated? || m.PoStatusChanged?
    requires UpdatedPo(m).id !in Ids(s.purchaseOrders)
    ensures OnMessage(s, m).purchaseOrders == s.purchaseOrders
  {
    var r := OnMessage(s, m);
    forall i | 0 <= i < |s.purchaseOrders|
      ensures r.purchaseOrders[i] == s.purchaseOrders[i]
    {
      assert Ids(s.purchaseOrders)[i] == s.purchaseOrders[i].po.id;
    }
  }

  /** After a status change, every listed order with that id, and the open
      order when it has that id, shows the new status. */
  lemma StatusChangeShown(s: PageState, po: PurchaseOrder, from: string, to: string)
    requires po.status == to
    ensures var r := OnMessage(s, PoStatusChanged(po, from, to));
            && (forall i :: 0 <= i < |r.purchaseOrders| && r.purchaseOrders[i].po.id == po.id ==>
                  r.purchaseOrders[i].po.status == to)
            && (r.selected.Some? && r.selected.value.po.id == po.id ==> r.selected.value.po.status == to)
  {
  }

  /** Delivering the same update twice leaves the page as one delivery does. */
  lemma UpdateIdempotent(s: PageState, m: Message)
    requires m.PoUpdated? || m.PoStatusChanged?
    ensures OnMessage(OnMessage(s, m), m) == OnMessage(s, m)
  {
    var once := OnMessage(s, m);
    var twice := OnMessage(once, m);
    assert twice.purchaseOrders == once.purchaseOrders;
  }

  /** After an update of the open order, the detail view and every list row
      for that order show the same record. */
  lemma SelectedInSync(s: PageState, m: Message)
    requires m.PoUpdated? || m.PoStatusChanged?
    requires s.selected.Some? && s.selected.value.po.id == UpdatedPo(m).id
    ensures var r := OnMessage(s, m);
            && r.selected.Some?
            && forall i :: 0 <= i < |r.purchaseOrders| && r.purchaseOrders[i].po.id == UpdatedPo(m).id ==>
                 r.purchaseOrders[i].po == r.selected.value.po
  {
  }

  /** What reaches the page from the stream: a message, or an error. */
  datatype StreamEvent = Received(m: Message) | StreamError

  /** One event: a message goes to `onmessage`, an error to `onerror`. */
  function Step(s: PageState, e: StreamEvent): (r: PageState)
    ensures e == StreamError ==> !r.connected
    ensures e == Received(Connected) ==> r.connected
    ensures |r.purchaseOrders| == |s.purchaseOrders| + (if e.Received? && e.m.PoCreated? then 1 else 0)
  {
    match e
    case Received(m) => OnMessage(s, m)
    case StreamError => OnError(s)
  }

  /** The page state after the events `es`, in order. */
  function Replay(s: PageState, es: seq<StreamEvent>): (r: PageState)
    ensures |r.purchaseOrders| >= |s.purchaseOrders|
    decreases |es|
  {
    if es == [] then s else Step(Replay(s, es[..|es| - 1]), es[|es| - 1])
  }

  /** The connection flag a sequence of events leaves: set by the last
      `connected` message, cleared by the last error, `initial` when neither occurs. */
  function LastConnection(es: seq<StreamEvent>, initial: bool): bool
    decreases |es|
  {
    if es == [] then initial
    else if es[|es| - 1] == Received(Connected) then true
    else if es[|es| - 1] == StreamError then false
    else LastConnection(es[..|es| - 1], initial)
  }

  /** The number of `po_created` messages among `es`. */
  function CreatedMessages(es: seq<StreamEvent>): nat
    decreases |es|
  {
    if es == [] then 0
    else CreatedMessages(es[..|es| - 1]) + (if es[|es| - 1].Received? && es[|es| - 1].m.PoCreated? then 1 else 0)
  }

  /** The connection indicator shows whether the last connection event was
      a `connected` message rather than an error. */
  lemma {:induction false} ReplayConnection(s: PageState, es: seq<StreamEvent>)
    ensures Replay(s, es).connected == LastConnection(es, s.connected)
    decreases |es|
  {
    if es != [] {
      ReplayConnection(s, es[..|es| - 1]);
    }
  }

  /** Only creations lengthen the list: updates, pings and errors keep its length. */
  lemma {:induction false} ReplayLength(s: PageState, es: seq<StreamEvent>)
    ensures |Replay(s, es).purchaseOrders| == |s.purchaseOrders| + CreatedMessages(es)
    decreases |es|
  {
    if es != [] {
      ReplayLength(s, es[..|es| - 1]);
    }
  }
}
