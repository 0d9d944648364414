/** The WooCommerce side of paid advertising: when an order completes, each of
    its advertising items either extends the listing's running advertising
    period or starts a new one, the order gets one note per such item, and the
    order is marked processed so that it is never processed twice. The cart and
    order-item filters carry the chosen listing and period from a per-user
    transient into the order's item meta.

    The duration lookup, the fresh-activation routine (whose effect on the
    listing is not known here), the advertising product ids and the clock are
    inputs. */
module Advertising {
  import opened Php

  const DayInSeconds := 86400
  const CompletedStatus := "completed"
  /** Order item meta keys written at checkout and read at activation. */
  const ListingIdKey := "_advertising_listing_id"
  const PeriodKey := "_advertising_period"
  /** Keys of the transient array the listing page stores. */
  const TransientListingId := "listing_id"
  const TransientPeriod := "period"

  /** The advertising meta of one listing; 0 stands for a missing meta row,
      which PHP reads as the falsy empty string. */
  datatype ListingMeta = ListingMeta(isAdvertised: int, endDate: int, startDate: int)

  const NoMeta := ListingMeta(0, 0, 0)

  /** An order note; the note's text and date formatting are not modelled. */
  datatype Note = Extended(listingId: int, days: int, newEnd: int) | Activated(listingId: int, days: int)

  /** One call of `classiadspro_activate_advertising(listing_id, duration)`. */
  datatype Activation = Activation(listingId: Val, days: int)

  datatype Order = Order(processed: bool, items: seq<int>, notes: seq<Note>)

  /** A transient as `get_transient` returns it: a scalar or an array. */
  datatype Stored = Scalar(v: Val) | Fields(entries: map<string, Val>)

  /** The functions this class calls but does not define. */
  datatype Services = Services(
    durationOf: Val -> int,                             // classiadspro_get_advertising_duration
    activate: (nat, int, ListingMeta) -> ListingMeta,   // effect of classiadspro_activate_advertising
    productIds: seq<int>)                               // classiadspro_get_advertising_product_ids

  /** The stored state the class reads and writes. */
  datatype Db = Db(
    orders: map<int, Order>,
    itemMeta: map<int, map<string, seq<Val>>>,
    listings: map<nat, ListingMeta>,
    activations: seq<Activation>,
    transients: map<int, Stored>)

  /** What the item loop accumulates. */
  datatype Progress = Progress(listings: map<nat, ListingMeta>, notes: seq<Note>, activations: seq<Activation>)

  /** `wc_get_order_item_meta($item, $key, true)`: the first row, or "". */
  function ItemMeta(itemMeta: map<int, map<string, seq<Val>>>, item: int, key: string): Val
  {
    if item in itemMeta && key in itemMeta[item] && itemMeta[item][key] != [] then itemMeta[item][key][0]
    else Str("")
  }

  /** `get_post_meta` on a listing, with missing rows read as 0; the meta API
      answers nothing for object id 0, which stands for an invalid id. */
  function MetaOf(listings: map<nat, ListingMeta>, key: nat): ListingMeta
  {
    if key != 0 && key in listings then listings[key] else NoMeta
  }

  /** An item takes part when its listing id and period are truthy and the
      period's duration is non-zero. */
  predicate Eligible(itemMeta: map<int, map<string, seq<Val>>>, item: int, svc: Services)
  {
    var listingId := ItemMeta(itemMeta, item, ListingIdKey);
    var period := ItemMeta(itemMeta, item, PeriodKey);
    Truthy(listingId) && Truthy(period) && svc.durationOf(period) != 0
  }

  /** The extension condition: advertised, with an end date that has not passed. */
  predicate Running(meta: ListingMeta, now: int)
  {
    meta.isAdvertised != 0 && meta.endDate != 0 && meta.endDate >= now
  }

  /** The effect of one order item. */
  function ItemStep(p: Progress, itemMeta: map<int, map<string, seq<Val>>>, item: int, now: int, svc: Services)
    : Progress
  {
    if !Eligible(itemMeta, item, svc) then p
    else
      var listingId := ItemMeta(itemMeta, item, ListingIdKey);
      var days := svc.durationOf(ItemMeta(itemMeta, item, PeriodKey));
      var key := ObjectId(listingId);
      var meta := MetaOf(p.listings, key);
      if Running(meta, now) then
        var newEnd := meta.endDate + days * DayInSeconds;
        p.(listings := p.listings[key := meta.(endDate := newEnd, isAdvertised := 1)],
           notes := p.notes + [Extended(IntVal(listingId), days, newEnd)])
      else
        p.(listings := if key != 0 then p.listings[key := svc.activate(key, days, meta)] else p.listings,
           notes := p.notes + [Activated(IntVal(listingId), days)],
           activations := p.activations + [Activation(listingId, days)])
  }

  /** The effect of the items, in order. */
  function Run(p: Progress, itemMeta: map<int, map<string, seq<Val>>>, items: seq<int>, now: int, svc: Services)
    : Progress
  {
    if items == [] then p
    else ItemStep(Run(p, itemMeta, items[..|items| - 1], now, svc), itemMeta, items[|items| - 1], now, svc)
  }

  /** `process_advertising_activation` as a function of the stored state. */
  function Activate(db: Db, orderId: int, now: int, svc: Services): (r: Db)
    ensures r.itemMeta == db.itemMeta && r.transients == db.transients
    ensures r.orders.Keys == db.orders.Keys
    ensures forall o :: o in db.orders && o != orderId ==> r.orders[o] == db.orders[o]
    ensures orderId in db.orders ==> r.orders[orderId].processed && r.orders[orderId].items == db.orders[orderId].items
  {
    if orderId !in db.orders || db.orders[orderId].processed then db
    else
      var order := db.orders[orderId];
      var p := Run(Progress(db.listings, order.notes, db.activations), db.itemMeta, order.items, now, svc);
      db.(orders := db.orders[orderId := Order(true, order.items, p.notes)],
          listings := p.listings, activations := p.activations)
  }

  /** `on_order_status_changed`'s guard: a transition into "completed" from
      any other status. */
  predicate ShouldActivate(statusFrom: string, statusTo: string)
  {
    statusTo == CompletedStatus && statusFrom != CompletedStatus
  }

  /** The number of items that take part. */
  function EligibleCount(itemMeta: map<int, map<string, seq<Val>>>, items: seq<int>, svc: Services): nat
  {
    if items == [] then 0
    else EligibleCount(itemMeta, items[..|items| - 1], svc)
         + (if Eligible(itemMeta, items[|items| - 1], svc) then 1 else 0)
  }

  /** The listing keys the eligible items of a list refer to. */
  function Targets(itemMeta: map<int, map<string, seq<Val>>>, items: seq<int>, svc: Services): set<nat>
  {
    if items == [] then {}
    else
      var item := items[|items| - 1];
      Targets(itemMeta, items[..|items| - 1], svc)
      + (if Eligible(itemMeta, item, svc) && ObjectId(ItemMeta(itemMeta, item, ListingIdKey)) != 0
         then {ObjectId(ItemMeta(itemMeta, item, ListingIdKey))} else {})
  }

  /** The transient key-value copy `add_cart_item_data` performs. */
  function WithAdvertisingData(data: map<string, Val>, entries: map<string, Val>): map<string, Val>
  {
    data[ListingIdKey := if TransientListingId in entries then entries[TransientListingId] else Null]
        [PeriodKey := if TransientPeriod in entries then entries[TransientPeriod] else Null]
  }

  /** `wc_add_order_item_meta`: appends one row under a key. */
  function AddRow(itemMeta: map<int, map<string, seq<Val>>>, item: int, key: string, v: Val)
    : map<int, map<string, seq<Val>>>
  {
    var rows := if item in itemMeta then itemMeta[item] else map[];
    itemMeta[item := rows[key := (if key in rows then rows[key] else []) + [v]]]
  }

  /** `modify_cart_item_name`: an item carrying a listing id gets the listing's
      title, HTML-escaped, appended to its name. */
  function CartItemName(name: string, cartItem: map<string, Val>, titleOf: Val -> string,
                        escape: string -> string): string
  {
    if IsSet(cartItem, ListingIdKey) then
      name + CartItemSuffix + escape(titleOf(cartItem[ListingIdKey])) + "</small>"
    else name
  }

  const CartItemSuffix := "<br><small>Объявление: "

  /** `add_order_item_meta`: the two advertising values that are set, in order. */
  function WithOrderItemMeta(itemMeta: map<int, map<string, seq<Val>>>, item: int, values: map<string, Val>)
    : map<int, map<string, seq<Val>>>
  {
    var m1 := if IsSet(values, ListingIdKey) then AddRow(itemMeta, item, ListingIdKey, values[ListingIdKey])
              else itemMeta;
    if IsSet(values, PeriodKey) then AddRow(m1, item, PeriodKey, values[PeriodKey]) else m1
  }

  /** `hide_order_item_meta`: the two advertising keys are hidden in the admin. */
  function HideOrderItemMeta(hidden: seq<string>): (r: seq<string>)
    ensures |r| == |hidden| + 2 && r[..|hidden|] == hidden
    ensures r[|hidden|..] == [ListingIdKey, PeriodKey]
    ensures ListingIdKey in r && PeriodKey in r
    ensures forall k :: k in r ==> k in hidden || k == ListingIdKey || k == PeriodKey
  {
    hidden + [ListingIdKey] + [PeriodKey]
  }

  /** The stored state, with the order, listing and transient stores as maps. */
  class Store {
    var orders: map<int, Order>
    var itemMeta: map<int, map<string, seq<Val>>>
    var listings: map<nat, ListingMeta>
    var activations: seq<Activation>
    var transients: map<int, Stored>

    function Snapshot(): Db
      reads this
    {
      Db(orders, itemMeta, listings, activations, transients)
    }

    constructor (db: Db)
      ensures Snapshot() == db
    {
      orders, itemMeta, listings, activations, transients :=
        db.orders, db.itemMeta, db.listings, db.activations, db.transients;
    }

    /** `process_advertising_activation`. */
    method ProcessAdvertisingActivation(orderId: int, now: int, svc: Services)
      modifies this
      ensures Snapshot() == Activate(old(Snapshot()), orderId, now, svc)
    {
      if orderId !in orders {
        return;
      }
      var order := orders[orderId];
      if order.processed {
        return;
      }
      var notes := order.notes;
      var i := 0;
      while i < |order.items|
        invariant 0 <= i <= |order.items|
        invariant orders == old(orders) && itemMeta == old(itemMeta) && transients == old(transients)
        invariant Progress(listings, notes, activations)
                  == Run(Progress(old(listings), order.notes, old(activations)), itemMeta, order.items[..i], now, svc)
      {
        assert order.items[..i + 1][..i] == order.items[..i];
        notes := ProcessItem(order.items[i], notes, now, svc);
        i := i + 1;
      }
      assert order.items[..|order.items|] == order.items;
      orders := orders[orderId := Order(true, order.items, notes)];
    }

    /** One pass of the item loop: skip the item, extend the listing's
        running advertising, or activate it afresh. */
    method ProcessItem(item: int, notes: seq<Note>, now: int, svc: Services) returns (notes': seq<Note>)
      modifies this`listings, this`activations
      ensures Progress(listings, notes', activations)
              == ItemStep(Progress(old(listings), notes, old(activations)), itemMeta, item, now, svc)
    {
      notes' := notes;
      var listingId := ItemMeta(itemMeta, item, ListingIdKey);
      var period := ItemMeta(itemMeta, item, PeriodKey);
      if !Truthy(listingId) || !Truthy(period) {
        return;
      }
      var days := svc.durationOf(period);
      if days == 0 {
        return;
      }
      var key := ObjectId(listingId);
      var meta := MetaOf(listings, key);
      if meta.isAdvertised != 0 && meta.endDate != 0 && meta.endDate >= now {
        var newEnd := meta.endDate + days * DayInSeconds;
        listings := listings[key := meta.(endDate := newEnd)];
        listings := listings[key := listings[key].(isAdvertised := 1)];
        notes' := notes + [Extended(IntVal(listingId), days, newEnd)];
      } else {
        activations := activations + [Activation(listingId, days)];
        if key != 0 {
          listings := listings[key := svc.activate(key, days, meta)];
        }
        notes' := notes + [Activated(IntVal(listingId), days)];
      }
    }

    /** `on_payment_complete`, also hooked to the order reaching "completed". */
    method OnPaymentComplete(orderId: int, now: int, svc: Services)
      modifies this
      ensures Snapshot() == Activate(old(Snapshot()), orderId, now, svc)
    {
      ProcessAdvertisingActivation(orderId, now, svc);
    }

    /** `on_order_status_changed`. */
    method OnOrderStatusChanged(orderId: int, statusFrom: string, statusTo: string, now: int, svc: Services)
      modifies this
      ensures Snapshot() == if ShouldActivate(statusFrom, statusTo) then Activate(old(Snapshot()), orderId, now, svc)
                            else old(Snapshot())
    {
      if statusTo == CompletedStatus && statusFrom != CompletedStatus {
        ProcessAdvertisingActivation(orderId, now, svc);
      }
    }

    /** `add_cart_item_data`: for an advertising product, copy the listing id
        and period of the user's transient into the cart item and delete the
        transient, when the transient is a non-empty array. */
    method AddCartItemData(data: map<string, Val>, productId: int, userId: int, svc: Services)
      returns (r: map<string, Val>)
      modifies this`transients
      ensures productId !in svc.productIds ==> r == data && transients == old(transients)
      ensures productId in svc.productIds && userId in old(transients) && old(transients)[userId].Fields?
              && old(transients)[userId].entries != map[] ==>
                r == WithAdvertisingData(data, old(transients)[userId].entries)
                && transients == old(transients) - {userId}
      ensures !(userId in old(transients) && old(transients)[userId].Fields?
                && old(transients)[userId].entries != map[]) ==>
                r == data && transients == old(transients)
    {
      if productId !in svc.productIds {
        return data;
      }
      r := data;
      if userId in transients && transients[userId].Fields? && transients[userId].entries != map[] {
        var entries := transients[userId].entries;
        r := r[ListingIdKey := if TransientListingId in entries then entries[TransientListingId] else Null];
        r := r[PeriodKey := if TransientPeriod in entries then entries[TransientPeriod] else Null];
        transients := transients - {userId};
      }
    }

    /** `add_order_item_meta`. */
    method AddOrderItemMeta(item: int, values: map<string, Val>)
      modifies this`itemMeta
      ensures itemMeta == WithOrderItemMeta(old(itemMeta), item, values)
    {
      if IsSet(values, ListingIdKey) {
        itemMeta := AddRow(itemMeta, item, ListingIdKey, values[ListingIdKey]);
      }
      if IsSet(values, PeriodKey) {
        itemMeta := AddRow(itemMeta, item, PeriodKey, values[PeriodKey]);
      }
    }
  }

  /** A run on a missing or already processed order changes nothing, and a
      second run on the same order changes nothing whatever the clock and
      services then say: each order is processed at most once. */
  lemma ActivateIsIdempotent(db: Db, orderId: int, now: int, svc: Services, now': int, svc': Services)
    ensures orderId !in db.orders || db.orders[orderId].processed ==> Activate(db, orderId, now, svc) == db
    ensures var once := Activate(db, orderId, now, svc);
            Activate(once, orderId, now', svc') == once
  {
  }

  /** Payment completion and the status change into "completed" both fire for
      the same order; together they process it once. A change from
      "completed" to "completed" does not trigger a run. */
  lemma CompletionHooksProcessOnce(db: Db, orderId: int, statusFrom: string, now: int, svc: Services,
                                   now': int, svc': Services)
    ensures !ShouldActivate(CompletedStatus, CompletedStatus)
    ensures var afterPayment := Activate(db, orderId, now, svc);
            var afterStatus := if ShouldActivate(statusFrom, CompletedStatus)
                               then Activate(afterPayment, orderId, now', svc') else afterPayment;
            afterStatus == afterPayment
  {
    ActivateIsIdempotent(db, orderId, now, svc, now', svc');
  }

  /** An item without a truthy listing id, without a truthy period, or whose
      period has no duration leaves no trace. */
  lemma IneligibleItemLeavesNoTrace(p: Progress, itemMeta: map<int, map<string, seq<Val>>>, item: int,
                                    now: int, svc: Services)
    requires !Truthy(ItemMeta(itemMeta, item, ListingIdKey)) || !Truthy(ItemMeta(itemMeta, item, PeriodKey))
             || svc.durationOf(ItemMeta(itemMeta, item, PeriodKey)) == 0
    ensures ItemStep(p, itemMeta, item, now, svc) == p
  {
  }

  /** The extension path: the end date moves by the duration in seconds, the
      listing is marked advertised, its start date and every other listing are
      untouched, no fresh activation happens and one note is added. */
  lemma ExtensionAddsDuration(p: Progress, itemMeta: map<int, map<string, seq<Val>>>, item: int,
                              now: int, svc: Services)
    requires Eligible(itemMeta, item, svc)
    requires Running(MetaOf(p.listings, ObjectId(ItemMeta(itemMeta, item, ListingIdKey))), now)
    ensures var key := ObjectId(ItemMeta(itemMeta, item, ListingIdKey));
            var days := svc.durationOf(ItemMeta(itemMeta, item, PeriodKey));
            var before := MetaOf(p.listings, key);
            var q := ItemStep(p, itemMeta, item, now, svc);
            && key in q.listings
            && q.listings[key].endDate == before.endDate + days * DayInSeconds
            && q.listings[key].isAdvertised == 1
            && q.listings[key].startDate == before.startDate
            && (days > 0 ==> q.listings[key].endDate > before.endDate)
            && (forall k :: k != key ==> MetaOf(q.listings, k) == MetaOf(p.listings, k))
            && q.activations == p.activations
            && |q.notes| == |p.notes| + 1 && q.notes[|p.notes|].Extended?
  {
  }

  /** The fresh path: one delegated activation for the item's listing and
      duration, and one note. */
  lemma FreshActivationDelegatedOnce(p: Progress, itemMeta: map<int, map<string, seq<Val>>>, item: int,
                                     now: int, svc: Services)
    requires Eligible(itemMeta, item, svc)
    requires !Running(MetaOf(p.listings, ObjectId(ItemMeta(itemMeta, item, ListingIdKey))), now)
    ensures var q := ItemStep(p, itemMeta, item, now, svc);
            && q.activations == p.activations + [Activation(ItemMeta(itemMeta, item, ListingIdKey),
                                                            svc.durationOf(ItemMeta(itemMeta, item, PeriodKey)))]
            && |q.notes| == |p.notes| + 1 && q.notes[|p.notes|].Activated?
  {
  }

  /** Each item that takes part adds exactly one note, notes and activations
      are only ever appended, and there are at most as many activations as
      items that take part. */
  lemma {:induction false} NotesPerEligibleItem(p: Progress, itemMeta: map<int, map<string, seq<Val>>>,
                                                items: seq<int>, now: int, svc: Services)
    ensures var q := Run(p, itemMeta, items, now, svc);
            && |q.notes| == |p.notes| + EligibleCount(itemMeta, items, svc)
            && q.notes[..|p.notes|] == p.notes
            && |p.activations| <= |q.activations| <= |p.activations| + EligibleCount(itemMeta, items, svc)
            && q.activations[..|p.activations|] == p.activations
  {
    if items != [] {
      var init := items[..|items| - 1];
      NotesPerEligibleItem(p, itemMeta, init, now, svc);
      var r := Run(p, itemMeta, init, now, svc);
      var q := ItemStep(r, itemMeta, items[|items| - 1], now, svc);
      assert q.notes[..|r.notes|] == r.notes;
      assert q.notes[..|p.notes|] == r.notes[..|p.notes|];
      assert q.activations[..|r.activations|] == r.activations;
      assert q.activations[..|p.activations|] == r.activations[..|p.activations|];
    }
  }

  /** Listings that no eligible item of the order refers to are untouched. */
  lemma {:induction false} OnlyTargetedListingsChange(p: Progress, itemMeta: map<int, map<string, seq<Val>>>,
                                                      items: seq<int>, now: int, svc: Services, key: nat)
    requires key !in Targets(itemMeta, items, svc)
    ensures var q := Run(p, itemMeta, items, now, svc);
            (key in q.listings <==> key in p.listings) && MetaOf(q.listings, key) == MetaOf(p.listings, key)
  {
    if items != [] {
      OnlyTargetedListingsChange(p, itemMeta, items[..|items| - 1], now, svc, key);
    }
  }

  /** After a run on an existing order, the order is marked processed, even
      when none of its items took part, and it carries one new note per item
      that took part. */
  lemma ActivationMarksOrder(db: Db, orderId: int, now: int, svc: Services)
    requires orderId in db.orders && !db.orders[orderId].processed
    ensures var r := Activate(db, orderId, now, svc);
            var items := db.orders[orderId].items;
            && r.orders[orderId].processed
            && |r.orders[orderId].notes| == |db.orders[orderId].notes| + EligibleCount(db.itemMeta, items, svc)
            && (forall k :: k !in Targets(db.itemMeta, items, svc) ==> MetaOf(r.listings, k) == MetaOf(db.listings, k))
  {
    var order := db.orders[orderId];
    var p := Progress(db.listings, order.notes, db.activations);
    NotesPerEligibleItem(p, db.itemMeta, order.items, now, svc);
    forall k | k !in Targets(db.itemMeta, order.items, svc)
      ensures MetaOf(Activate(db, orderId, now, svc).listings, k) == MetaOf(db.listings, k)
    {
      OnlyTargetedListingsChange(p, db.itemMeta, order.items, now, svc, k);
    }
  }

  /** The checkout path: the listing id and period stored in the user's
      transient, once copied into the cart item and from there into a new
      order item's meta, are what the activation reads back. */
  lemma CheckoutCarriesSelection(itemMeta: map<int, map<string, seq<Val>>>, item: int,
                                 data: map<string, Val>, entries: map<string, Val>)
    requires item !in itemMeta
    requires TransientListingId in entries && entries[TransientListingId] != Null
    requires TransientPeriod in entries && entries[TransientPeriod] != Null
    ensures var m := WithOrderItemMeta(itemMeta, item, WithAdvertisingData(data, entries));
            && ItemMeta(m, item, ListingIdKey) == entries[TransientListingId]
            && ItemMeta(m, item, PeriodKey) == entries[TransientPeriod]
            && (forall i :: i != item ==> (i in m <==> i in itemMeta))
  {
    var values := WithAdvertisingData(data, entries);
    assert ListingIdKey != PeriodKey;
    assert values[ListingIdKey] == entries[TransientListingId] && IsSet(values, ListingIdKey);
    assert values[PeriodKey] == entries[TransientPeriod] && IsSet(values, PeriodKey);
    var m1 := AddRow(itemMeta, item, ListingIdKey, values[ListingIdKey]);
    assert [] + [entries[TransientListingId]] == [entries[TransientListingId]];
    assert m1[item][ListingIdKey] == [entries[TransientListingId]];
    var m := AddRow(m1, item, PeriodKey, values[PeriodKey]);
    assert m[item][ListingIdKey] == [entries[TransientListingId]];
    assert m[item][PeriodKey] == [entries[TransientPeriod]];
  }

  /** `add_order_item_meta` copies exactly the set keys, and every key it
      writes is one `hide_order_item_meta` hides. */
  lemma OrderItemMetaCopiesSetKeys(itemMeta: map<int, map<string, seq<Val>>>, item: int,
                                   values: map<string, Val>, hidden: seq<string>)
    ensures var m := WithOrderItemMeta(itemMeta, item, values);
            && (forall i :: i != item ==> (i in m <==> i in itemMeta) && (i in itemMeta ==> m[i] == itemMeta[i]))
            && (!IsSet(values, ListingIdKey) && !IsSet(values, PeriodKey) ==> m == itemMeta)
            && (forall k :: item in m && k in m[item] && !(item in itemMeta && k in itemMeta[item] && m[item][k] == itemMeta[item][k])
                  ==> k in HideOrderItemMeta(hidden) && IsSet(values, k))
  {
  }

  /** A listing id that is not numeric, or numeric with value 0, names no
      listing: the item takes the fresh path, no listing meta changes and the
      activation routine is still called with the raw id. */
  lemma InvalidListingIdActivatesFresh(p: Progress, itemMeta: map<int, map<string, seq<Val>>>, item: int,
                                       now: int, svc: Services)
    requires Eligible(itemMeta, item, svc)
    requires ObjectId(ItemMeta(itemMeta, item, ListingIdKey)) == 0
    ensures var q := ItemStep(p, itemMeta, item, now, svc);
            && q.listings == p.listings
            && q.activations == p.activations + [Activation(ItemMeta(itemMeta, item, ListingIdKey),
                                                            svc.durationOf(ItemMeta(itemMeta, item, PeriodKey)))]
            && q.notes[|p.notes|..] == [Activated(IntVal(ItemMeta(itemMeta, item, ListingIdKey)),
                                                  svc.durationOf(ItemMeta(itemMeta, item, PeriodKey)))]
  {
  }

  /** An id with text after its digits, such as "12abc", never extends
      listing 12, however that listing is advertised. */
  lemma TrailingTextNeverExtends(p: Progress, itemMeta: map<int, map<string, seq<Val>>>, item: int,
                                 now: int, svc: Services)
    requires ItemMeta(itemMeta, item, ListingIdKey) == Str("12abc")
    requires Eligible(itemMeta, item, svc)
    ensures var q := ItemStep(p, itemMeta, item, now, svc);
            && q.listings == p.listings
            && |q.activations| == |p.activations| + 1
  {
    TrailingTextIsNoId();
    InvalidListingIdActivatesFresh(p, itemMeta, item, now, svc);
  }

  /** The cart name filter after the cart data filter: once an advertising
      product's cart data has taken the listing id from the user's transient,
      the displayed name is the product name followed by that listing's
      escaped title; a transient without a listing id leaves the name as it is. */
  lemma CartNameShowsSelectedListing(name: string, data: map<string, Val>, entries: map<string, Val>,
                                     titleOf: Val -> string, escape: string -> string)
    ensures var shown := CartItemName(name, WithAdvertisingData(data, entries), titleOf, escape);
            && (IsSet(entries, TransientListingId) ==>
                  |shown| > |name| && shown[..|name|] == name
                  && shown[|name|..] == CartItemSuffix + escape(titleOf(entries[TransientListingId])) + "</small>")
            && (!IsSet(entries, TransientListingId) ==> shown == name)
  {
    var cart := WithAdvertisingData(data, entries);
    assert ListingIdKey != PeriodKey;
    assert cart[ListingIdKey] == if TransientListingId in entries then entries[TransientListingId] else Null;
    if IsSet(entries, TransientListingId) {
      var shown := CartItemName(name, cart, titleOf, escape);
      assert shown == name + (CartItemSuffix + escape(titleOf(entries[TransientListingId])) + "</small>");
    }
  }
}
