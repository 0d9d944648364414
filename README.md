# Classiadspro push notifications, paid advertising and search-filter panels

This project models three sequential pieces of the Classiadspro WordPress theme in Dafny:

- **Push notifications** (`firebase.dfy`, module `Firebase`). The "message sent" hook validates the message and resolves the sender. It then collects recipient ids from four sources, strictly in order, each consulted only while the earlier ones gave nothing:
  1. the message's `message_to_id`;
  2. the messaging plugin's participants helper;
  3. the message's `_difp_participants` meta;
  4. the parent conversation's `_difp_participants` meta.

  The hook drops 0 and the sender, removes duplicates and sends one push per recipient. The body is a 20-word preview, or a fixed text when the content is empty. The "listing expired" and "listing deactivated" hooks each send one push to the listing's author.
- **Paid advertising** (`advertising.dfy`, module `Advertising`). When an order completes, each item carrying a listing id and a period is handled in one of two ways:
  - if the listing's advertising is still running, its end date is extended by the period's duration in days and a note is added;
  - otherwise advertising is freshly activated and a note is added.

  The order is then marked processed, so it is never processed twice. The cart and order-item filters carry the listing and period from a per-user transient into the order's item meta and hide those keys in the admin.
- **Search-filter panels** (`search_filters.dfy`, module `SearchFilters`). A click on a panel header shows or hides that panel and records the panel's key (its id, or its class name when the id is empty) as touched. On page load, every untouched panel is hidden on a window at most 768 pixels wide and shown otherwise. A resize to a wide window shows every untouched hidden panel and never hides one.

`php.dfy` (module `Php`) gives PHP's scalar values, its boolean conversion and `intval`. It also proves that a decimal string reads back as its number.

## How the code is modelled

State the code changes in place is a Dafny `class`:
- the order/meta/listing store, `Advertising.Store`;
- the filter-panel controller, `SearchFilters.FilterToggle`.

Each method is proved against a pure function of the old state (`Activate`, `Sweep`, `Toggled`). The source's promises are then proved as lemmas about those functions. The message-sent handler's accumulation loops and send loop are methods proved equal to the pure `MessageSentEffect`.

Everything the code calls outside the modelled files is an input:
- user, post and meta lookups;
- the participants helper;
- `fpn_send_push`, `strip_tags` and `wp_trim_words`;
- the advertising duration lookup and `classiadspro_activate_advertising`'s effect on a listing;
- the advertising product ids;
- the clock;
- the window width.

The answers of `fpn_send_push` are recorded in the call trace.

## Model

| member | source | states |
|---|---|---|
| Php.IntValOfDecimal | wordpress/wp-content/themes/classiadspro/includes/actions/firebase.php:51 | `intval` of the decimal rendering of any integer is that integer |
| Php.TruthyDecimal | wordpress/wp-content/themes/classiadspro/includes/actions/firebase.php:48 | a decimal id string passes the emptiness test exactly when its number is non-zero |
| Php.ObjectIdOfDecimal | wordpress/wp-content/themes/classiadspro/includes/advertising/class-advertising-woocommerce.php:127-128 | the meta API reads the listing whose number a decimal id string spells, whatever its sign |
| Firebase.DecimalRecipientField | wordpress/wp-content/themes/classiadspro/includes/actions/firebase.php:48-60 | a `message_to_id` holding one decimal id yields that id exactly when it is non-zero and not the sender, so the emptiness guard and the `intval` test agree |
| Firebase.Filter | wordpress/wp-content/themes/classiadspro/includes/actions/firebase.php:50-55 | the ids one source contributes are never longer than its raw entries, and none is 0 or the sender |
| Firebase.FilterMembers | wordpress/wp-content/themes/classiadspro/includes/actions/firebase.php:48-60 | an id is contributed exactly when some raw entry converts to it and it is neither 0 nor the sender |
| Firebase.AppendFiltered | wordpress/wp-content/themes/classiadspro/includes/actions/firebase.php:50-55 | the accumulation loop appends exactly the source's kept ids, in order, to what was collected before |
| Firebase.Unique | wordpress/wp-content/themes/classiadspro/includes/actions/firebase.php:104 | `array_unique` keeps the same set of ids, without duplicates, never lengthening the list |
| Firebase.UniqueOfDistinct | wordpress/wp-content/themes/classiadspro/includes/actions/firebase.php:104 | `array_unique` leaves a duplicate-free list unchanged |
| Firebase.UniqueKeepsFirstOccurrenceOrder | wordpress/wp-content/themes/classiadspro/includes/actions/firebase.php:104 | `array_unique` keeps the ids in the order of their first occurrences, so together with `Unique`'s contract the push order is fixed |
| Firebase.Fallback | wordpress/wp-content/themes/classiadspro/includes/actions/firebase.php:65-75 | a fallback block reads its source only while nothing was found and the source is available, and otherwise changes nothing |
| Firebase.ResolveRecipients | wordpress/wp-content/themes/classiadspro/includes/actions/firebase.php:45-101 | the four guarded blocks yield the first non-empty source's ids and read exactly the sources `Consulted` lists |
| Firebase.FirstNonEmptyIsFirst | wordpress/wp-content/themes/classiadspro/includes/actions/firebase.php:47-101 | the fallback chain yields nothing only when every source is empty, and otherwise yields a source all of whose predecessors are empty |
| Firebase.ConsultedFromShape | wordpress/wp-content/themes/classiadspro/includes/actions/firebase.php:48-91 | the guards admit a source exactly when it is available and all earlier sources came back empty, in fixed order |
| Firebase.ConsultedOnlyAfterEmptySources | wordpress/wp-content/themes/classiadspro/includes/actions/firebase.php:47-101 | the participants helper is read only when it exists and `message_to_id` gave nothing. The message meta is read only when both earlier sources gave nothing. The parent meta is read only when there is a parent and all three gave nothing. Sources are read in order |
| Firebase.SendEach | wordpress/wp-content/themes/classiadspro/includes/actions/firebase.php:123-142 | the send loop makes one push call per recipient, in order, whatever earlier calls answered, and none when the push helper is missing |
| Firebase.OnMessageSent | wordpress/wp-content/themes/classiadspro/includes/actions/firebase.php:18-146 | the handler's outcome, sources read and push calls are those of `MessageSentEffect` |
| Firebase.NoPushWithoutMessageAndSender | wordpress/wp-content/themes/classiadspro/includes/actions/firebase.php:23-40 | a falsy message id, a non-object inserted message, a zero sender id or an unknown sender ends the run with no source read and no push |
| Firebase.PushesExcludeSender | wordpress/wp-content/themes/classiadspro/includes/actions/firebase.php:45-142 | every push goes to a non-zero id other than the sender's, and no id is pushed twice |
| Firebase.NoRecipientsNoPush | wordpress/wp-content/themes/classiadspro/includes/actions/firebase.php:106-111 | when no source yields a kept id, the run ends as "no recipients" with no push |
| Firebase.RecipientsFromFirstNonEmptySource | wordpress/wp-content/themes/classiadspro/includes/actions/firebase.php:45-104 | the recipients are, without repetition, exactly the ids of some source whose predecessors all yielded nothing |
| Firebase.OnePushPerRecipient | wordpress/wp-content/themes/classiadspro/includes/actions/firebase.php:123-142 | with the push helper present there is one push per recipient, in recipient order, all with the same "new_message" notification |
| Firebase.PushedNotification | wordpress/wp-content/themes/classiadspro/includes/actions/firebase.php:123-131 | every push of a run carries the notification built from the message and its sender |
| Firebase.PreviewFallback | wordpress/wp-content/themes/classiadspro/includes/actions/firebase.php:116-131 | every pushed body is the fixed fallback text when the content is falsy, and otherwise the trimmed, tag-stripped content. The content is `message_content` when set, and the post content otherwise |
| Firebase.OnListingExpired | wordpress/wp-content/themes/classiadspro/includes/actions/firebase.php:153-180 | a missing listing or push helper sends nothing. Otherwise exactly one "listing_expired" push goes to the author, naming the listing's title and linking to the listing's edit page |
| Firebase.OnListingDeactivated | wordpress/wp-content/themes/classiadspro/includes/actions/firebase.php:187-214 | the same for "listing_deactivated" |
| Advertising.Activate | wordpress/wp-content/themes/classiadspro/includes/advertising/class-advertising-woocommerce.php:98-163 | a run never touches item meta, transients or other orders, and leaves the order processed with its items |
| Advertising.Store.ProcessAdvertisingActivation | wordpress/wp-content/themes/classiadspro/includes/advertising/class-advertising-woocommerce.php:98-163 | the item loop leaves the store exactly as `Activate` describes |
| Advertising.Store.ProcessItem | wordpress/wp-content/themes/classiadspro/includes/advertising/class-advertising-woocommerce.php:111-158 | one pass of the item loop leaves the listings, notes and activations as `ItemStep` describes |
| Advertising.Store.OnPaymentComplete | wordpress/wp-content/themes/classiadspro/includes/advertising/class-advertising-woocommerce.php:87-89 | payment completion runs the activation |
| Advertising.Store.OnOrderStatusChanged | wordpress/wp-content/themes/classiadspro/includes/advertising/class-advertising-woocommerce.php:72-77 | a status change runs the activation only on a transition into "completed" from another status |
| Advertising.ActivateIsIdempotent | wordpress/wp-content/themes/classiadspro/includes/advertising/class-advertising-woocommerce.php:99-162 | a missing or already processed order is left as it is, and a second run on an order changes nothing whatever the clock and services say |
| Advertising.CompletionHooksProcessOnce | wordpress/wp-content/themes/classiadspro/includes/advertising/class-advertising-woocommerce.php:72-89 | payment completion followed by a status change into "completed" processes the order once |
| Advertising.IneligibleItemLeavesNoTrace | wordpress/wp-content/themes/classiadspro/includes/advertising/class-advertising-woocommerce.php:111-124 | an item with a falsy listing id, a falsy period or a zero duration changes no listing, note or activation |
| Advertising.ExtensionAddsDuration | wordpress/wp-content/themes/classiadspro/includes/advertising/class-advertising-woocommerce.php:126-146 | running advertising is extended: the new end is the old end plus the days in seconds, the listing is marked advertised and its start date is kept. Other listings are untouched, nothing is activated and one note is added |
| Advertising.FreshActivationDelegatedOnce | wordpress/wp-content/themes/classiadspro/includes/advertising/class-advertising-woocommerce.php:147-157 | advertising that is not running triggers exactly one activation with the item's listing id and duration, and adds one note |
| Advertising.InvalidListingIdActivatesFresh | wordpress/wp-content/themes/classiadspro/includes/advertising/class-advertising-woocommerce.php:127-157 | a listing id that is not numeric, or is 0, finds no running advertising. The item takes the fresh path, no listing meta changes and one activation is recorded |
| Advertising.TrailingTextNeverExtends | wordpress/wp-content/themes/classiadspro/includes/advertising/class-advertising-woocommerce.php:127-157 | an id such as "12abc" never extends listing 12 |
| Advertising.NotesPerEligibleItem | wordpress/wp-content/themes/classiadspro/includes/advertising/class-advertising-woocommerce.php:111-158 | each eligible item adds exactly one note. Notes and activations are only appended, and there are at most as many activations as eligible items |
| Advertising.OnlyTargetedListingsChange | wordpress/wp-content/themes/classiadspro/includes/advertising/class-advertising-woocommerce.php:111-158 | a listing no eligible item refers to keeps its meta |
| Advertising.ActivationMarksOrder | wordpress/wp-content/themes/classiadspro/includes/advertising/class-advertising-woocommerce.php:98-163 | an unprocessed order comes out processed, even with no eligible item. It carries one new note per eligible item, and untargeted listings keep their meta |
| Advertising.Store.AddCartItemData | wordpress/wp-content/themes/classiadspro/includes/advertising/class-advertising-woocommerce.php:173-194 | a non-advertising product, or a user with no non-empty array transient, gets its cart data back unchanged. Otherwise the listing id and period are copied into the cart data and the transient is deleted |
| Advertising.CartNameShowsSelectedListing | wordpress/wp-content/themes/classiadspro/includes/advertising/class-advertising-woocommerce.php:173-213 | once the cart data has taken the listing id from the transient, the shown name is the product name followed by that listing's escaped title. A transient without a listing id leaves the name as it is |
| Advertising.Store.AddOrderItemMeta | wordpress/wp-content/themes/classiadspro/includes/advertising/class-advertising-woocommerce.php:222-230 | the order item gets one meta row for each of the two keys that is set |
| Advertising.HideOrderItemMeta | wordpress/wp-content/themes/classiadspro/includes/advertising/class-advertising-woocommerce.php:238-243 | the hidden list keeps its entries and gains exactly the two advertising keys at its end, the listing id first and then the period |
| Advertising.CheckoutCarriesSelection | wordpress/wp-content/themes/classiadspro/includes/advertising/class-advertising-woocommerce.php:173-230 | a listing id and period set in the transient, copied to the cart item and then to a new order item, are what the activation reads back |
| Advertising.OrderItemMetaCopiesSetKeys | wordpress/wp-content/themes/classiadspro/includes/advertising/class-advertising-woocommerce.php:222-243 | only the item's meta changes, and only under keys that are set. Nothing changes when neither key is set, and every key written is one that is hidden |
| SearchFilters.FilterToggle.constructor | wordpress/wp-content/themes/classiadspro/directorypress/assets/js/search-form-filters.js:8 | a fresh page's touch record already answers for the property names every object inherits |
| SearchFilters.InheritedKeysCountAsTouched | wordpress/wp-content/themes/classiadspro/directorypress/assets/js/search-form-filters.js:8-106 | on a fresh page, a panel whose key is an inherited property name is never changed by a load or a resize |
| SearchFilters.Shown | wordpress/wp-content/themes/classiadspro/directorypress/assets/js/search-form-filters.js:26-42 | showing or hiding a panel leaves display, wrapper class and chevron consistent, and keeps the panel's key and form |
| SearchFilters.FilterToggle.Toggle | wordpress/wp-content/themes/classiadspro/directorypress/assets/js/search-form-filters.js:16-43 | a click leaves the controller in the state `Toggled` describes |
| SearchFilters.ToggleFlips | wordpress/wp-content/themes/classiadspro/directorypress/assets/js/search-form-filters.js:21-42 | a click records the key and shows a panel whose display is "none", or hides it otherwise. Wrapper class, chevron and form flag follow, and other panels are unchanged |
| SearchFilters.ToggleTwice | wordpress/wp-content/themes/classiadspro/directorypress/assets/js/search-form-filters.js:26-42 | two clicks restore a consistent panel. A panel with no inline display ends up shown |
| SearchFilters.FilterToggle.Show | wordpress/wp-content/themes/classiadspro/directorypress/assets/js/search-form-filters.js:63-81 | showing or hiding one panel in place matches `SetPanel` |
| SearchFilters.Sweep | wordpress/wp-content/themes/classiadspro/directorypress/assets/js/search-form-filters.js:50-82 | a sweep keeps the touched keys and the panel count, and leaves unvisited panels alone |
| SearchFilters.SweepPanels | wordpress/wp-content/themes/classiadspro/directorypress/assets/js/search-form-filters.js:50-82 | each panel is visited once, and its outcome depends only on the panel as it was before the sweep |
| SearchFilters.FilterToggle.Init | wordpress/wp-content/themes/classiadspro/directorypress/assets/js/search-form-filters.js:46-83 | the load handler leaves the controller as the load `Sweep` describes |
| SearchFilters.FilterToggle.Resize | wordpress/wp-content/themes/classiadspro/directorypress/assets/js/search-form-filters.js:96-131 | the resize handler body leaves the controller as the resize `Sweep` describes |
| SearchFilters.LoadHidesIffMobile | wordpress/wp-content/themes/classiadspro/directorypress/assets/js/search-form-filters.js:11-82 | on load an untouched panel is hidden exactly when the width is at most 768, and is left consistent. A touched panel is left alone |
| SearchFilters.IdleSweep | wordpress/wp-content/themes/classiadspro/directorypress/assets/js/search-form-filters.js:100-130 | a sweep in which no untouched panel has anything to do changes nothing, form flags included |
| SearchFilters.ResizeOnlyShows | wordpress/wp-content/themes/classiadspro/directorypress/assets/js/search-form-filters.js:96-131 | a resize never changes a visible panel, shows exactly the untouched hidden panels on a wide window, and changes nothing on a mobile one |
| SearchFilters.ResizeAfterLoadIsIdle | wordpress/wp-content/themes/classiadspro/directorypress/assets/js/search-form-filters.js:46-131 | a resize at the width the page loaded with changes nothing |
| SearchFilters.SharedKeySharesTouch | wordpress/wp-content/themes/classiadspro/directorypress/assets/js/search-form-filters.js:21-106 | a click on one panel also protects every panel with the same key from the next load or resize |
| SearchFilters.TouchedPanelsStay | wordpress/wp-content/themes/classiadspro/directorypress/assets/js/search-form-filters.js:8-131 | over any sequence of clicks, loads and resizes, touched keys are never forgotten. A touched panel changes only through a click on a panel with its key |

## Left out

- URLs (`home_url`, `get_edit_post_link`) are not built. A notification's action records the message or listing id the URL is built from.
- `error_log` output and the `try`/`catch` blocks are not modelled. The external calls are modelled as total functions that do not throw.
- Hook registration (`add_action`, `add_filter`) and the singleton `get_instance` are plumbing and are not modelled.
- The resize debounce (`setTimeout`/`clearTimeout`) and the `DOMContentLoaded` and `resize` listeners are not modelled. Load and the resize handler's body are steps.
- DOM querying is not modelled. Each container is a record holding its key, its display, its wrapper's `collapsed` class, the form it sits in and its header icon. A panel stands for one wrapper holding one container. The header clicked and the header found by class are taken to be the same, and a wrapper is always present.
- Two requests processing one order at the same time can both pass the processed-flag check. This race is outside a sequential model.
- `intval` is modelled for leading white space, an optional sign and a digit run. Exponent forms ("1e3") and saturation at the platform integer range are not.
- PHP's overflow from integer to float in `end + duration * DAY_IN_SECONDS` is not modelled; integers are unbounded.
- The source reads `current_time('timestamp')` once per item. The model takes one `now` per run.
- `classiadspro_activate_advertising` is not part of this model. Its effect on the listing's meta is an input function, and the call itself is recorded.
- Advertising.InvalidListingIdActivatesFresh, Advertising.TrailingTextNeverExtends, Advertising.OnlyTargetedListingsChange, Advertising.ActivationMarksOrder: their listings-unchanged clauses rest on an assumption about `classiadspro_activate_advertising`, whose code is not part of this model. It is taken to write only the listing whose id the meta API accepts (`is_numeric`, then `absint`), and nothing at all for an id the meta API rejects. If the routine reads the raw id another way (as `get_post` casts "12abc" to 12), it could reset a listing these clauses say is kept.
- Order note texts and their date formatting (`date_i18n`) are not rendered. A note records the listing, the days and, for an extension, the new end date.
- `is_numeric` is modelled for integer strings only. A listing id such as "12.0" or "1e3", which WordPress's meta API accepts, is treated as naming no listing.
- `in_array`'s loose comparison of the product id is modelled as integer membership.
- Non-array answers of `difp_get_participants` and `get_post_meta` are given as empty lists. The handler skips them exactly as it skips empty arrays.
- Listing meta is numeric in the model. The source's comparison of the stored end-date string with the timestamp is read as a numeric comparison.
- `get_the_title`, `esc_html`, `strip_tags`, `wp_trim_words` and `get_site_icon_url` are inputs, not reimplemented.
