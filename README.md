# PharmaHub decision logic in Dafny

PharmaHub is an Android pharmacy app. Customers browse products, fill a cart, upload
prescriptions for the products that need one, place cash-on-delivery orders, follow their
order status and leave reviews. Data lives in a hosted document store. This project models
the layer of decisions that sits under the screens. The store is replaced by in-memory
sequences and maps, and the current time is passed in as `now`, in milliseconds.

The model has one Dafny module per source file of that layer:

- Records and their stored forms: `Products`, `CartProducts`, `Categories`, `Users`,
  `Complaints`, `Reviews`, `Extensions`, `StoredMaps`, `Prescriptions`, `Orders`.
- The two order-status tables and their parsers: `OrderStatuses`, `UnifiedOrderStatuses`.
  `OrderDetail` and `AllOrders` model the screens that read those statuses.
- Prescription gating of the cart: `Cart` (the cart view model) and `CartScreen` (the
  cart screen). They map the relevant prescription's status, use and age to one of six
  states, and the state decides whether checkout and cart changes are blocked.
- Order placement: `OrderPlacement` validates the prescriptions, groups lines per
  pharmacist, updates stock and marks prescriptions used. `Billing` is the checkout
  screen. `OrderFix` is the repair utility for an order's prescription links.
- Search and history: `Search` (matching, ranking, view-model state) and
  `PrescriptionHistory` (the non-pending prescription list and its status filter).
- Product screens: `Details` (merging into the cart, pending review, expiry, reviews)
  and `ProductDetailsScreen` (availability, strength choice, the add-to-cart decision).
- Validators: `AddReview`, `CustomerService`, `Support` (complaints), `ImageValidation`
  (prescription images) and `Location` (the human-verification gate).
- Shared helpers: `Text` holds ASCII string operations and `Option`. `Firestore` holds
  stored document values, the loading/success/error wrapper and call outcomes.

Screens and view models whose fields change in place are classes. Their methods state
the whole new state, usually through a function the lemmas are about. Pure rules are
functions with lemmas.

## Model

| member | source | states |
|---|---|---|
| Products.Product.DisplayStrength | app/src/main/java/com/example/pharmahub11/data/Product.kt:54-56 | the sole strength when the product has exactly one, and "" when it has none or several |
| Products.NewProduct | app/src/main/java/com/example/pharmahub11/data/Product.kt:9-31 | the primary constructor keeps the arguments it is given; omitted ones take the declared defaults (quantities 0, no prescription, pharmacy name absent) |
| Products.NoArgProduct | app/src/main/java/com/example/pharmahub11/data/Product.kt:32-52 | the no-argument product has id "0", empty texts and lists, no prescription requirement, quantities 0, no expiry, and pharmacy name "" rather than absent |
| CartProducts.CartProduct.DisplayInfo | app/src/main/java/com/example/pharmahub11/data/CartProduct.kt:22-28 | starts with the product name; " (strength)" follows exactly when a strength was chosen, " - form" ends it exactly when a form was chosen; it equals the bare name exactly when neither was chosen |
| CartProducts.NewCartProduct | app/src/main/java/com/example/pharmahub11/data/CartProduct.kt:7-18 | the primary constructor keeps its arguments; omitted optional fields are absent and pharmacist id "" |
| CartProducts.NoArgCartProduct | app/src/main/java/com/example/pharmahub11/data/CartProduct.kt:19 | the no-argument line holds one unit of the no-argument product, no choices, no order, and displays as the bare product name |
| Categories.Values | app/src/main/java/com/example/pharmahub11/data/Category.kt:5-10 | the five categories, in declaration order |
| Categories.ValuesComplete | app/src/main/java/com/example/pharmahub11/data/Category.kt:5-10 | every category is among the values searched |
| Categories.NamesDistinct | app/src/main/java/com/example/pharmahub11/data/Category.kt:6-10 | no two category names are equal, even ignoring case |
| Categories.FirstNamed | app/src/main/java/com/example/pharmahub11/data/Category.kt:13-14 | a category found is one of those searched and carries the name ignoring case; none is found only when no candidate carries it |
| Categories.FromString | app/src/main/java/com/example/pharmahub11/data/Category.kt:12-16 | a category whose name equals the input ignoring case when one exists, Over The Counter when none does |
| Categories.FromStringRoundTrip | app/src/main/java/com/example/pharmahub11/data/Category.kt:5-16 | looking up a category's own name, in any letter case, gives that category back |
| Users.User.FullName | app/src/main/java/com/example/pharmahub11/data/User.kt:13-14 | "first last" with the surrounding whitespace removed: "" for two empty parts, the single part when the other is empty |
| Users.User.ToMap | app/src/main/java/com/example/pharmahub11/data/User.kt:17-22 | exactly the keys firstName, lastName, email and imagePath, all strings, never the id |
| Users.FromMap | app/src/main/java/com/example/pharmahub11/data/User.kt:25-31 | each field is the stored string, or "" when the key is missing or holds another type; the id is the one passed |
| Users.RoundTrip | app/src/main/java/com/example/pharmahub11/data/User.kt:17-31 | reading back a stored profile under its id gives the profile |
| Users.FromEmptyMap | app/src/main/java/com/example/pharmahub11/data/User.kt:25-31 | an empty map reads as the all-empty profile with the given id |
| Complaints.Complaint.ToMap | app/src/main/java/com/example/pharmahub11/data/Complaint.kt:19-27 | exactly seven keys and never the id; the timestamp is stored as null exactly when absent |
| Complaints.FromMap | app/src/main/java/com/example/pharmahub11/data/Complaint.kt:30-39 | the status defaults to "pending", the type to "customer_service" and the text to ""; a timestamp is kept exactly when the stored value is a timestamp |
| Complaints.RoundTrip | app/src/main/java/com/example/pharmahub11/data/Complaint.kt:19-39 | reading back a stored complaint under its id gives the complaint |
| Extensions.Capitalize | app/src/main/java/com/example/pharmahub11/util/Extension.kt:41 | a word keeps its length and only its first character is upper-cased |
| Extensions.CapitalizeAll | app/src/main/java/com/example/pharmahub11/util/Extension.kt:41 | each piece is capitalised, in order |
| Extensions.CapitalizeWords | app/src/main/java/com/example/pharmahub11/util/Extension.kt:40-42 | same length as the input; character by character, every underscore becomes a space and the first character of each word is upper-cased |
| Extensions.CapitalizeWordsPointwise | app/src/main/java/com/example/pharmahub11/util/Extension.kt:40-42 | splitting on "_", capitalising and joining with " " agrees with that character-by-character description |
| Extensions.CapitalizeAllCons | app/src/main/java/com/example/pharmahub11/util/Extension.kt:41 | capitalising a list capitalises its head and then its tail |
| Extensions.JoinCons | app/src/main/java/com/example/pharmahub11/util/Extension.kt:41 | joining a word in front of a non-empty list puts the separator between them |
| Extensions.CapitalizeWordPointwise | app/src/main/java/com/example/pharmahub11/util/Extension.kt:41 | a single word without underscores is capitalised character by character |
| Extensions.JoinAfterWord | app/src/main/java/com/example/pharmahub11/util/Extension.kt:41 | gluing the first word, a space and the rest keeps the character-by-character description |
| Extensions.WordCount | app/src/main/java/com/example/pharmahub11/util/Extension.kt:40-42 | the words number the underscores plus one |
| Extensions.PrescriptionStatusColour | app/src/main/java/com/example/pharmahub11/util/Extension.kt:44-50 | green exactly for "approved" and red exactly for "rejected", ignoring case; orange for anything else |
| Extensions.ColourMatchesStatus | app/src/main/java/com/example/pharmahub11/util/Extension.kt:44-50 | the colour agrees with the record's own status predicates: green iff approved, red iff rejected, orange for pending, used and cancelled |
| StoredMaps.AddressMap | app/src/main/java/com/example/pharmahub11/util/Extension.kt:65-74 | an address is stored with exactly its six fields |
| StoredMaps.ProductMap | app/src/main/java/com/example/pharmahub11/util/Extension.kt:87-107 | a product is stored with exactly its seventeen listed fields |
| StoredMaps.ProductMapOmitsStock | app/src/main/java/com/example/pharmahub11/util/Extension.kt:87-107 | stock counts and dates are not stored with a cart line's product |
| StoredMaps.ProductMapOfferDefault | app/src/main/java/com/example/pharmahub11/util/Extension.kt:94 | an absent offer is stored as 0 |
| StoredMaps.ProductMapPharmacyNameDefault | app/src/main/java/com/example/pharmahub11/util/Extension.kt:105 | an absent pharmacy name is stored as "" |
| StoredMaps.CartProductMap | app/src/main/java/com/example/pharmahub11/util/Extension.kt:75-86 | a cart line is stored with exactly its eight fields |
| StoredMaps.CartProductMapNestsProduct | app/src/main/java/com/example/pharmahub11/util/Extension.kt:77 | the line's product is nested whole, as its own stored map |
| StoredMaps.CartProductMapDefaults | app/src/main/java/com/example/pharmahub11/util/Extension.kt:79-84 | an absent strength, dosage form, pharmacy name or prescription image is stored as "" |
| StoredMaps.PrescriptionMap | app/src/main/java/com/example/pharmahub11/util/Extension.kt:109-123 | a prescription is stored with exactly its eleven fields |
| StoredMaps.PrescriptionMapOmits | app/src/main/java/com/example/pharmahub11/util/Extension.kt:109-123 | the use, the product entries and the rejection reason are not stored |
| StoredMaps.PrescriptionMapFields | app/src/main/java/com/example/pharmahub11/util/Extension.kt:111-121 | each stored field holds the record's value; an absent order id, pharmacist id or note is stored as "" |
| StoredMaps.PrescriptionMapReadBack | app/src/main/java/com/example/pharmahub11/util/Extension.kt:109-123 | parsing a stored prescription back gives the record with "" for its absent texts and without products, use or rejection reason |
| StoredMaps.OrderMap | app/src/main/java/com/example/pharmahub11/util/Extension.kt:51-64 | an order is stored with exactly its ten fields |
| StoredMaps.OrderMapLines | app/src/main/java/com/example/pharmahub11/util/Extension.kt:61 | the lines are stored one map each, same number and same order |
| StoredMaps.OrderMapPrescriptions | app/src/main/java/com/example/pharmahub11/util/Extension.kt:62 | the prescriptions are stored one map each, same number and same order |
| StoredMaps.OrderMapOmits | app/src/main/java/com/example/pharmahub11/util/Extension.kt:51-64 | the pharmacist, the delivery instructions and the prescription ids are not stored with the order |
| Prescriptions.StatusList | app/src/main/java/com/example/pharmahub11/data/PrescriptionData.kt:67-73 | the five statuses pending, approved, rejected, used, cancelled in that order, pairwise different even ignoring case |
| Prescriptions.PrescriptionData.IsPending | app/src/main/java/com/example/pharmahub11/data/PrescriptionData.kt:54 | holds exactly when the status, lower-cased, is "pending": the test ignores case |
| Prescriptions.PrescriptionData.IsApproved | app/src/main/java/com/example/pharmahub11/data/PrescriptionData.kt:55 | holds exactly when the status, lower-cased, is "approved" |
| Prescriptions.PrescriptionData.IsRejected | app/src/main/java/com/example/pharmahub11/data/PrescriptionData.kt:56 | holds exactly when the status, lower-cased, is "rejected" |
| Prescriptions.PrescriptionData.IsUsed | app/src/main/java/com/example/pharmahub11/data/PrescriptionData.kt:57 | holds exactly when the status, lower-cased, is "used" |
| Prescriptions.PrescriptionData.IsCancelled | app/src/main/java/com/example/pharmahub11/data/PrescriptionData.kt:58 | holds exactly when the status, lower-cased, is "cancelled" |
| Prescriptions.StatusesLowercase | app/src/main/java/com/example/pharmahub11/data/PrescriptionData.kt:61-65 | the five status constants are written in lower case |
| Prescriptions.StatusesExclusive | app/src/main/java/com/example/pharmahub11/data/PrescriptionData.kt:54-58 | at most one of the five status predicates holds for any record |
| Prescriptions.ConvertTimestamp | app/src/main/java/com/example/pharmahub11/data/PrescriptionData.kt:122-129 | a long is returned unchanged, a timestamp or date gives its milliseconds, and anything else, a missing field included, gives the current time |
| Prescriptions.ParseProductInfo | app/src/main/java/com/example/pharmahub11/data/PrescriptionData.kt:83-96 | each of the nine string fields is the stored string or "" when missing or not text; a prescription is required unless the field is the boolean false; the price is the stored long or double, 0 otherwise; a cancellation time is read exactly when the field is a number |
| Prescriptions.ParseProducts | app/src/main/java/com/example/pharmahub11/data/PrescriptionData.kt:81-98 | one parsed entry per stored map, in order |
| Prescriptions.Parse | app/src/main/java/com/example/pharmahub11/data/PrescriptionData.kt:74-120 | no record without document data or when a product entry is not a map; otherwise the id is the document's, the status defaults to "pending", the use is the stored string, the time is converted |
| Prescriptions.ProductIdsOf | app/src/main/java/com/example/pharmahub11/data/PrescriptionData.kt:103 | only the string entries of the stored id list, in order; nothing when the field is not a list |
| Prescriptions.FromFirestore | app/src/main/java/com/example/pharmahub11/data/PrescriptionData.kt:74-120 | collecting the product entries one at a time gives exactly the record the parser describes |
| Prescriptions.IdFromDocument | app/src/main/java/com/example/pharmahub11/data/PrescriptionData.kt:101 | the record's id is the document's id even when the stored fields carry another "id" |
| Prescriptions.Defaults | app/src/main/java/com/example/pharmahub11/data/PrescriptionData.kt:81-109 | a document without status or products parses, is pending, and has no product entries |
| OrderStatuses.Values | app/src/main/java/com/example/pharmahub11/data/order/OrderStatus.kt:19-98 | the eight statuses, in declaration order |
| OrderStatuses.ValuesComplete | app/src/main/java/com/example/pharmahub11/data/order/OrderStatus.kt:19-98 | every status is among the values |
| OrderStatuses.CustomerVisibleStatuses | app/src/main/java/com/example/pharmahub11/data/order/OrderStatus.kt:103-105 | exactly ORDERED, CONFIRMED, SHIPPED, DELIVERED, CANCELLED and PAID, in declaration order |
| OrderStatuses.Successors | app/src/main/java/com/example/pharmahub11/data/order/OrderStatus.kt:107-116 | the list is empty exactly for the statuses a pharmacist cannot act on (DELIVERED, CANCELLED, PAID); no status lists itself, ORDERED or PAID; CANCELLED follows exactly ORDERED, CONFIRMED, PROCESSING and READY_FOR_DELIVERY |
| OrderStatuses.RouteToDelivered | app/src/main/java/com/example/pharmahub11/data/order/OrderStatus.kt:107-116 | from every status a pharmacist can still act on there is a path of transitions ending at DELIVERED |
| OrderStatuses.ValueOf | app/src/main/java/com/example/pharmahub11/data/order/OrderStatus.kt:19-98 | the constant named exactly by the text, and none when no constant has that name |
| OrderStatuses.NameIsUpper | app/src/main/java/com/example/pharmahub11/data/order/OrderStatus.kt:19-98 | constant names are already upper case |
| OrderStatuses.IsCustomerVisible | app/src/main/java/com/example/pharmahub11/data/order/OrderStatus.kt:15-97 | hidden from customers exactly for PROCESSING and READY_FOR_DELIVERY; a hidden status is one a pharmacist can still act on |
| OrderStatuses.IsPharmacistActionable | app/src/main/java/com/example/pharmahub11/data/order/OrderStatus.kt:16-97 | not actionable exactly for DELIVERED, CANCELLED and PAID |
| UnifiedOrderStatuses.Values | app/src/main/java/com/example/pharmahub11/data/order/UnifiedOrderStatus.kt:16-23 | the eight values, in declaration order |
| UnifiedOrderStatuses.ValuesComplete | app/src/main/java/com/example/pharmahub11/data/order/UnifiedOrderStatus.kt:16-23 | every value is among those searched |
| UnifiedOrderStatuses.NamesDistinct | app/src/main/java/com/example/pharmahub11/data/order/UnifiedOrderStatus.kt:16-23 | names differ pairwise even ignoring case |
| UnifiedOrderStatuses.DisplayName | app/src/main/java/com/example/pharmahub11/data/order/UnifiedOrderStatus.kt:9-23 | as long as the constant name, with a space for each underscore and every other character the name's own letter up to case |
| UnifiedOrderStatuses.IsCustomerVisible | app/src/main/java/com/example/pharmahub11/data/order/UnifiedOrderStatus.kt:12-23 | hidden from customers exactly for PROCESSING, which a pharmacist can still act on |
| UnifiedOrderStatuses.IsPharmacistActionable | app/src/main/java/com/example/pharmahub11/data/order/UnifiedOrderStatus.kt:13-23 | not actionable exactly for DELIVERED and CANCELLED |
| UnifiedOrderStatuses.IsFinalState | app/src/main/java/com/example/pharmahub11/data/order/UnifiedOrderStatus.kt:14-23 | final exactly when a pharmacist can no longer act on it |
| UnifiedOrderStatuses.FirstMatch | app/src/main/java/com/example/pharmahub11/data/order/UnifiedOrderStatus.kt:27-30 | a value found is one searched whose name or status matches ignoring case; none only when no candidate matches |
| UnifiedOrderStatuses.FromString | app/src/main/java/com/example/pharmahub11/data/order/UnifiedOrderStatus.kt:26-31 | a value whose name or status equals the input ignoring case when one exists, PENDING otherwise |
| UnifiedOrderStatuses.FromStringRoundTrip | app/src/main/java/com/example/pharmahub11/data/order/UnifiedOrderStatus.kt:16-31 | looking up a value's own name or status, in any case, gives that value back |
| UnifiedOrderStatuses.CustomerVisibleStatuses | app/src/main/java/com/example/pharmahub11/data/order/UnifiedOrderStatus.kt:33-35 | every value except PROCESSING, in declaration order |
| UnifiedOrderStatuses.NextValidStatuses | app/src/main/java/com/example/pharmahub11/data/order/UnifiedOrderStatus.kt:37-46 | empty exactly for DELIVERED, CANCELLED and PENDING, hence for both final states; PROCESSING may go straight to SHIPPED; no value lists itself, ORDERED or PENDING |
| UnifiedOrderStatuses.StepRaises | app/src/main/java/com/example/pharmahub11/data/order/UnifiedOrderStatus.kt:37-46 | every transition strictly raises a fixed height |
| UnifiedOrderStatuses.PathRaises | app/src/main/java/com/example/pharmahub11/data/order/UnifiedOrderStatus.kt:37-46 | along any path of transitions the height strictly grows |
| UnifiedOrderStatuses.Acyclic | app/src/main/java/com/example/pharmahub11/data/order/UnifiedOrderStatus.kt:37-46 | no path of transitions returns to the value it started from |
| Orders.Order.HasPrescriptionItems | app/src/main/java/com/example/pharmahub11/data/order/Order.kt:42-44 | holds exactly when the order carries a prescription or counts at least one line whose product needs one |
| Orders.RequiringCountPositive | app/src/main/java/com/example/pharmahub11/data/order/Order.kt:43 | the count of prescription lines is positive exactly when some line's product needs a prescription |
| Orders.Order.AllPrescriptionProductIds | app/src/main/java/com/example/pharmahub11/data/order/Order.kt:47-50 | its length is the prescriptions' id counts plus the number of prescription lines; an id is in it exactly when some prescription lists it or some prescription line carries it; an order without prescription items gives nothing |
| Orders.NewOrder | app/src/main/java/com/example/pharmahub11/data/order/Order.kt:13-29 | the primary constructor keeps its arguments and defaults the status to "Pending" |
| Orders.NoArgOrder | app/src/main/java/com/example/pharmahub11/data/order/Order.kt:30-41 | the no-argument order's status is ORDERED's text "Ordered", unlike the primary default, and it has no lines, no prescriptions and no prescription items |
| Orders.FlatIdsFacts | app/src/main/java/com/example/pharmahub11/data/order/Order.kt:48 | the flattened prescription ids have the summed length, and an id is in them exactly when some prescription lists it |
| Orders.NoneRequiring | app/src/main/java/com/example/pharmahub11/data/order/Order.kt:49 | without a prescription line there are no prescription line ids to count |
| Orders.RequiringIdsFacts | app/src/main/java/com/example/pharmahub11/data/order/Order.kt:49 | the prescription line ids number the prescription lines, and an id is among them exactly when such a line carries it |
| AllOrders.FindByStatus | app/src/main/java/com/example/pharmahub11/adapters/AllOrdersAdapter.kt:67-69 | a status found has a display text equal to the input ignoring case and is the first such in the list; none is found only when no display text matches |
| AllOrders.OrderStatusByString | app/src/main/java/com/example/pharmahub11/adapters/AllOrdersAdapter.kt:58-74 | null or blank text gives ORDERED; a name equal to the upper-cased text wins; otherwise a display text equal ignoring case; ORDERED when neither matches, so the lookup is total |
| AllOrders.ReadsByName | app/src/main/java/com/example/pharmahub11/adapters/AllOrdersAdapter.kt:63 | text whose upper-case form is a status name reads as that status |
| AllOrders.NameReadsBack | app/src/main/java/com/example/pharmahub11/adapters/AllOrdersAdapter.kt:58-74 | every stored enum name reads back as its own status |
| AllOrders.UpperStatusIsName | app/src/main/java/com/example/pharmahub11/adapters/AllOrdersAdapter.kt:63 | upper-casing a one-word display text gives the enum name |
| AllOrders.ReadyForDeliveryReadsBack | app/src/main/java/com/example/pharmahub11/adapters/AllOrdersAdapter.kt:64-69 | "Ready for Delivery", in any letter case, fails the name test and is found by the display-text test |
| AllOrders.StatusReadsBack | app/src/main/java/com/example/pharmahub11/adapters/AllOrdersAdapter.kt:58-74 | every display text reads back as its own status |
| AllOrders.FormatOrderDate | app/src/main/java/com/example/pharmahub11/adapters/AllOrdersAdapter.kt:43-56 | a non-blank date is shown as given; otherwise the creation time is used; "Date not available" exactly when the date is absent or blank and there is no creation time |
| AllOrders.OrderIdLabel | app/src/main/java/com/example/pharmahub11/adapters/AllOrdersAdapter.kt:23 | "Order #" followed by at most the first eight characters of the id, or "Unknown" without an id |
| AllOrders.DateLine | app/src/main/java/com/example/pharmahub11/adapters/AllOrdersAdapter.kt:36-39 | the item count is appended only when positive; the date text is always kept as the prefix |
| OrderDetail.GetOrderStatus | app/src/main/java/com/example/pharmahub11/fragments/settings/OrderDetailFragment.kt:341-348 | the status whose name equals the upper-cased text, ORDERED when there is none |
| OrderDetail.GetOrderStatusRoundTrip | app/src/main/java/com/example/pharmahub11/fragments/settings/OrderDetailFragment.kt:341-348 | a stored enum name, in any letter case, reads back as that status |
| OrderDetail.CanCancelOrder | app/src/main/java/com/example/pharmahub11/fragments/settings/OrderDetailFragment.kt:260-266 | only an order the status rules still let move to CANCELLED can be cancelled, and never a delivered, cancelled or paid one |
| OrderDetail.Steps | app/src/main/java/com/example/pharmahub11/fragments/settings/OrderDetailFragment.kt:72-74 | the indicator has five steps ending with PAID, and none of them is CANCELLED or a pharmacist-only status |
| OrderDetail.StepsAreVisibleStatuses | app/src/main/java/com/example/pharmahub11/fragments/settings/OrderDetailFragment.kt:72-74 | the steps are exactly the customer-visible statuses in their order with CANCELLED taken out |
| OrderDetail.StepIndex | app/src/main/java/com/example/pharmahub11/fragments/settings/OrderDetailFragment.kt:237 | a status's position among the steps, or the first step for a status that is not one |
| OrderDetail.NormalViewAsWritten | app/src/main/java/com/example/pharmahub11/fragments/settings/OrderDetailFragment.kt:233-256 | as written: the step shown is the status's step, done exactly on the last step, the cancel button exactly for a cancellable order, and never the review button |
| OrderDetail.ReviewNeverShownAsWritten | app/src/main/java/com/example/pharmahub11/fragments/settings/OrderDetailFragment.kt:239-256 | as written, no status ever shows the review button; a delivered order shows neither button |
| OrderDetail.NormalViewFor | app/src/main/java/com/example/pharmahub11/fragments/settings/OrderDetailFragment.kt:233-258 | the view marks the status's step and is done exactly at the last step |
| OrderDetail.ButtonsFollowStatus | app/src/main/java/com/example/pharmahub11/fragments/settings/OrderDetailFragment.kt:239-267 | with the corrected rule the review button shows exactly for DELIVERED, the cancel button exactly for ORDERED and PROCESSING, never both |
| OrderDetail.CorrectionOnlyForDelivered | app/src/main/java/com/example/pharmahub11/fragments/settings/OrderDetailFragment.kt:239-256 | the corrected view differs from the written one exactly for DELIVERED |
| OrderDetail.ViewFor | app/src/main/java/com/example/pharmahub11/fragments/settings/OrderDetailFragment.kt:77-81 | the cancelled view, which hides the steps and both buttons, exactly for CANCELLED; otherwise the normal view under the corrected review rule of the Findings table |
| OrderDetail.CancelUpdates | app/src/main/java/com/example/pharmahub11/fragments/settings/OrderDetailFragment.kt:169-172 | cancelling writes exactly the status name "CANCELLED" and the cancellation time |
| OrderDetail.ApplyUpdates | app/src/main/java/com/example/pharmahub11/fragments/settings/OrderDetailFragment.kt:174-177 | an update replaces the listed fields and keeps every other one |
| OrderDetail.CancelledDocumentReadsCancelled | app/src/main/java/com/example/pharmahub11/fragments/settings/OrderDetailFragment.kt:169-177 | a document after the cancel update reads back as CANCELLED |
| OrderDetail.OrderDetailFragment.constructor | app/src/main/java/com/example/pharmahub11/fragments/settings/OrderDetailFragment.kt:45-81 | the screen opens on the order's parsed status, with no cancellation date, showing the view for that status under the corrected review rule |
| OrderDetail.OrderDetailFragment.UpdateOrderStatus | app/src/main/java/com/example/pharmahub11/fragments/settings/OrderDetailFragment.kt:292-308 | the parsed status becomes current and the view follows it under the corrected review rule; a status equal to the current one leaves the view unchanged |
| OrderDetail.OrderDetailFragment.OnOrderSnapshot | app/src/main/java/com/example/pharmahub11/fragments/settings/OrderDetailFragment.kt:269-290 | a document without a string status changes nothing; otherwise a stored cancellation time is kept and the status applied, rendered under the corrected review rule |
| OrderDetail.OrderDetailFragment.CancelOrder | app/src/main/java/com/example/pharmahub11/fragments/settings/OrderDetailFragment.kt:162-191 | the cancel update is written; once accepted the order is CANCELLED at that time and the cancelled view is shown; a refused write changes nothing |
| Cart.PrescriptionItems | app/src/main/java/com/example/pharmahub11/viewmodel/CartViewModel.kt:108 | exactly the cart lines whose product needs a prescription, by its flag or a "prescription" category in any case |
| Cart.HasItemsIff | app/src/main/java/com/example/pharmahub11/viewmodel/CartViewModel.kt:121-124 | a cart needs the prescription gate exactly when its prescription lines are non-empty |
| Cart.CoversItemsOfCart | app/src/main/java/com/example/pharmahub11/viewmodel/CartViewModel.kt:126-140 | a prescription names a product of the prescription lines exactly when it names a prescription product of the cart |
| Cart.CoveredItemInCart | app/src/main/java/com/example/pharmahub11/viewmodel/CartViewModel.kt:131-136 | a prescription covering one of the prescription lines covers a cart product that needs one |
| Cart.CoveredLineIsItem | app/src/main/java/com/example/pharmahub11/viewmodel/CartViewModel.kt:131-136 | a prescription covering a prescription product of the cart covers one of the prescription lines |
| Cart.Covering | app/src/main/java/com/example/pharmahub11/viewmodel/CartViewModel.kt:131-136 | exactly the prescriptions naming a product of the given lines, never more than were given |
| Cart.MaxByTimestamp | app/src/main/java/com/example/pharmahub11/viewmodel/CartViewModel.kt:137 | none only for no prescriptions; otherwise one of them with no later timestamp among them |
| Cart.RelevantPrescription | app/src/main/java/com/example/pharmahub11/viewmodel/CartViewModel.kt:126-140 | none exactly when no prescription covers the cart; otherwise a covering one with the latest timestamp |
| Cart.Unused | app/src/main/java/com/example/pharmahub11/viewmodel/CartViewModel.kt:552 | exactly the prescriptions not yet used by an order |
| Cart.UnusedCovering | app/src/main/java/com/example/pharmahub11/viewmodel/CartViewModel.kt:551-556 | exactly the unused prescriptions that name one of the given lines |
| Cart.RequiresPrescription | app/src/main/java/com/example/pharmahub11/viewmodel/CartViewModel.kt:121-124 | a product needs a prescription exactly when flagged so or filed under the category "prescription", ignoring case |
| Cart.CartViewModel.HasPendingPrescription | app/src/main/java/com/example/pharmahub11/viewmodel/CartViewModel.kt:233-237 | true exactly when the loaded prescriptions hold an unused one still pending review |
| Cart.CartViewModel.HasPendingPrescriptionForProducts | app/src/main/java/com/example/pharmahub11/viewmodel/CartViewModel.kt:226-231 | true exactly when a loaded pending prescription names one of the given products; never for an empty product list |
| Cart.LatestRelevantPrescription | app/src/main/java/com/example/pharmahub11/viewmodel/CartViewModel.kt:547-557 | none exactly when no unused prescription names a given line; otherwise such a prescription with the latest timestamp |
| Cart.UnusedCoveringIsCoveringOfUnused | app/src/main/java/com/example/pharmahub11/viewmodel/CartViewModel.kt:551-555 | filtering for unused and covering in one pass equals covering among the unused |
| Cart.LatestIsRelevantAmongUnused | app/src/main/java/com/example/pharmahub11/viewmodel/CartViewModel.kt:547-557 | the latest relevant prescription is the relevant choice made among unused prescriptions |
| Cart.StateFor | app/src/main/java/com/example/pharmahub11/viewmodel/CartViewModel.kt:142-163 | no prescription, or a status other than the four compared (such as "used" or "APPROVED", as statuses are compared exactly), asks for a new upload |
| Cart.TruncDiv | app/src/main/java/com/example/pharmahub11/viewmodel/CartViewModel.kt:181-182 | whole-day division truncating toward zero: the quotient of a non-negative span is its floor |
| Cart.IsExpired | app/src/main/java/com/example/pharmahub11/viewmodel/CartViewModel.kt:179-184 | a prescription is never expired at or before its own timestamp |
| Cart.ExpiredIff | app/src/main/java/com/example/pharmahub11/viewmodel/CartViewModel.kt:179-184 | a prescription is expired exactly when at least eight whole days have passed since its timestamp |
| Cart.CheckoutOpenIff | app/src/main/java/com/example/pharmahub11/viewmodel/CartViewModel.kt:142-177 | checkout opens exactly for an unused, approved, unexpired prescription |
| Cart.FrozenIff | app/src/main/java/com/example/pharmahub11/viewmodel/CartViewModel.kt:142-177 | the cart is frozen exactly for an unused pending prescription, and a frozen cart cannot check out |
| Cart.StateReflectsStatus | app/src/main/java/com/example/pharmahub11/viewmodel/CartViewModel.kt:142-161 | the state is rejected or cancelled exactly for that status, and expired exactly for an unused approved prescription past its expiry |
| Cart.UsedNeverOpens | app/src/main/java/com/example/pharmahub11/viewmodel/CartViewModel.kt:142-165 | a prescription already used by an order yields only a new-upload, rejected or cancelled state |
| Cart.StatusMessage | app/src/main/java/com/example/pharmahub11/viewmodel/CartViewModel.kt:350-359 | the "Prescription approved" line is shown exactly in the one state where checkout is open |
| Cart.InstructionMessage | app/src/main/java/com/example/pharmahub11/viewmodel/CartViewModel.kt:362-371 | the "Cannot modify cart until approved" instruction is shown exactly in the state that freezes the cart; the expiry instruction names the seven-day limit from its constant |
| Cart.CancelledStatusReadsAsNew | app/src/main/java/com/example/pharmahub11/viewmodel/CartViewModel.kt:350-359 | the status line of a state equals that of a missing prescription exactly for the missing and cancelled states |
| Cart.CancelledInstructionReadsAsNew | app/src/main/java/com/example/pharmahub11/viewmodel/CartViewModel.kt:362-371 | the instruction line of a state equals that of a missing prescription exactly for the missing and cancelled states |
| Cart.CancelIfPending | app/src/main/java/com/example/pharmahub11/viewmodel/CartViewModel.kt:245-259 | a document matched by the cancellation query becomes cancelled at the given time; any other stays unchanged |
| Cart.KeepAfterPurge | app/src/main/java/com/example/pharmahub11/viewmodel/CartViewModel.kt:301-331 | exactly the documents the purge query does not match survive |
| Cart.PositionOf | app/src/main/java/com/example/pharmahub11/viewmodel/CartViewModel.kt:382 | the first index holding the line, none exactly when it is absent |
| Cart.CartViewModel.constructor | app/src/main/java/com/example/pharmahub11/viewmodel/CartViewModel.kt:48-92 | the view model starts with nothing loaded, a new upload required and nothing blocked |
| Cart.CartViewModel.UpdateBlockedStates | app/src/main/java/com/example/pharmahub11/viewmodel/CartViewModel.kt:167-177 | checkout is blocked unless approved; the cart is frozen only while pending; nothing else changes |
| Cart.CartViewModel.UpdatePrescriptionState | app/src/main/java/com/example/pharmahub11/viewmodel/CartViewModel.kt:142-165 | the state is the one the given prescription selects and the flags follow it |
| Cart.CartViewModel.UpdatePrescriptionStateForCart | app/src/main/java/com/example/pharmahub11/viewmodel/CartViewModel.kt:105-119 | a cart without prescription lines is ungated; otherwise the state follows the relevant held prescription |
| Cart.CartViewModel.OnCartSnapshot | app/src/main/java/com/example/pharmahub11/viewmodel/CartViewModel.kt:94-103 | a listener error publishes its message ("null" when there is none) and changes nothing else; a loaded cart is published with its document ids and the gate is re-evaluated for its lines |
| Cart.CartViewModel.RequiresNewPrescription | app/src/main/java/com/example/pharmahub11/viewmodel/CartViewModel.kt:334-347 | a new prescription is required exactly for a cart with prescription lines whose state is neither pending nor approved |
| Cart.CartViewModel.ChangeQuantity | app/src/main/java/com/example/pharmahub11/viewmodel/CartViewModel.kt:373-401 | nothing while frozen or for an unknown line; a decrease from one asks for deletion; otherwise the line's own document changes |
| Cart.CartViewModel.DeleteCartProduct | app/src/main/java/com/example/pharmahub11/viewmodel/CartViewModel.kt:186-204 | the document of a loaded line is deleted and the cart reloads; an unknown line changes nothing; the document ids and the gate are kept |
| Cart.CartViewModel.ClearCart | app/src/main/java/com/example/pharmahub11/viewmodel/CartViewModel.kt:403-434 | on success the cart is empty, a new upload is required and nothing is blocked; a failure publishes its message |
| Cart.CartViewModel.LoadPrescriptions | app/src/main/java/com/example/pharmahub11/viewmodel/CartViewModel.kt:450-471 | exactly the signed-in user's unused prescriptions are held; without a user, the authentication error; a failed read publishes its message, "Failed to load prescriptions" when it has none |
| Cart.CartViewModel.CancelPendingPrescription | app/src/main/java/com/example/pharmahub11/viewmodel/CartViewModel.kt:240-276 | with a user, a successful query and a committed batch, each matching document is cancelled at `now`, the rest unchanged, the gate reset to a blocked new upload, the prescriptions reloaded and the cancellation announced; otherwise nothing changes and nothing is announced |
| Cart.CartViewModel.PurgeOldPrescriptions | app/src/main/java/com/example/pharmahub11/viewmodel/CartViewModel.kt:301-331 | the documents kept are exactly those the purge does not match; without a user, or when the query or the commit fails, all are kept |
| Cart.KeepAfterPurgeAppend | app/src/main/java/com/example/pharmahub11/viewmodel/CartViewModel.kt:318-320 | the purge of one more document extends the purge of the rest by that document when it is kept |
| Cart.CancellationLeavesNoPending | app/src/main/java/com/example/pharmahub11/viewmodel/CartViewModel.kt:245-259 | after the cancellation batch no document matches the cancellation query and unmatched ones are unchanged |
| CartScreen.DataOf | app/src/main/java/com/example/pharmahub11/fragments/shopping/CartFragment.kt:88 | a payload exactly for a successful load, and then that load's data |
| CartScreen.CurrentValidPrescription | app/src/main/java/com/example/pharmahub11/fragments/shopping/CartFragment.kt:155-164 | none exactly when no prescription names a prescription line; otherwise one that does with the latest timestamp, used or not |
| CartScreen.PanelOfUnused | app/src/main/java/com/example/pharmahub11/fragments/shopping/CartFragment.kt:133-152 | for an unused prescription or none, the panel shows the view model's state, a cancelled one as "new required" |
| CartScreen.PanelAgreesWithViewModel | app/src/main/java/com/example/pharmahub11/fragments/shopping/CartFragment.kt:114-165 | over unused prescriptions the panel is hidden exactly without prescription lines and otherwise shows the view model's state |
| CartScreen.UsedApprovalShownAsApproved | app/src/main/java/com/example/pharmahub11/fragments/shopping/CartFragment.kt:140-145 | a used, approved, fresh prescription is shown as approved here while the view model asks for a new upload |
| CartScreen.IncreaseStaysInStock | app/src/main/java/com/example/pharmahub11/fragments/shopping/CartFragment.kt:438-442 | with a known stock, the plus button is allowed exactly when one more stays within it |
| CartScreen.CanIncreaseQuantity | app/src/main/java/com/example/pharmahub11/fragments/shopping/CartFragment.kt:438-442 | always allowed with a zero stock; otherwise allowed only when one more unit stays within the stock |
| CartScreen.PanelFor | app/src/main/java/com/example/pharmahub11/fragments/shopping/CartFragment.kt:114-165 | hidden exactly without prescription lines; "new required" when nothing is loaded; an approved panel shows a loaded, covering, approved, unexpired prescription and a pending panel a loaded, covering, pending, unused one |
| CartScreen.CartFragment.constructor | app/src/main/java/com/example/pharmahub11/fragments/shopping/CartFragment.kt:38-74 | the screen opens empty with the automatic checkout armed as its navigation argument says |
| CartScreen.CartFragment.OnPrice | app/src/main/java/com/example/pharmahub11/fragments/shopping/CartFragment.kt:351-358 | a non-null price becomes the total; a null one leaves everything as it was |
| CartScreen.CartFragment.ProceedToCheckout | app/src/main/java/com/example/pharmahub11/fragments/shopping/CartFragment.kt:444-471 | refused exactly when prescription lines lack an approved, unexpired current prescription; otherwise billing gets the lines, the total and that prescription |
| CartScreen.CartFragment.CheckoutClick | app/src/main/java/com/example/pharmahub11/fragments/shopping/CartFragment.kt:428-435 | an empty list is refused first; a checkout reaching billing carries lines and a verified prescription |
| CartScreen.CartFragment.UpdatePrescriptionUI | app/src/main/java/com/example/pharmahub11/fragments/shopping/CartFragment.kt:114-256 | the panel follows the decision and an approved panel consumes the armed automatic checkout, firing it once |
| CartScreen.CartFragment.SetupCartProducts | app/src/main/java/com/example/pharmahub11/fragments/shopping/CartFragment.kt:87-107 | an empty or missing list empties the screen and hides the prescription panel; otherwise the prescription lines are recomputed and the panel redrawn |
| OrderPlacement.Ids | app/src/main/java/com/example/pharmahub11/viewmodel/OrderViewModel.kt:150 | the requested ids, one per prescription and in order |
| OrderPlacement.Found | app/src/main/java/com/example/pharmahub11/viewmodel/OrderViewModel.kt:151-159 | exactly the requested ids naming a stored approved prescription of the user |
| OrderPlacement.CountMatchIff | app/src/main/java/com/example/pharmahub11/viewmodel/OrderViewModel.kt:161-164 | the found count equals the requested count exactly when the ids are distinct and all qualify |
| OrderPlacement.ValidatePrescriptions | app/src/main/java/com/example/pharmahub11/viewmodel/OrderViewModel.kt:143-172 | validated exactly when every requested prescription is a distinct approved one of the user, giving the stored records; otherwise the missing ids are exactly those that do not qualify |
| OrderPlacement.ValidateForOrder | app/src/main/java/com/example/pharmahub11/viewmodel/OrderViewModel.kt:174-202 | an empty list is valid without a query; a failed query gives "Prescription validation failed: " and its message; success exactly when the query succeeds and the same validation passes, else the "invalid or already used" error |
| OrderPlacement.Fetched | app/src/main/java/com/example/pharmahub11/viewmodel/OrderViewModel.kt:105-121 | only the pharmacy fields can change; a failed read or a field that is not text leaves the line as it was; a successful read sets the pharmacist id, pharmacy name and address to the document's strings, or "" where it has none |
| OrderPlacement.Enrich | app/src/main/java/com/example/pharmahub11/viewmodel/OrderViewModel.kt:71-77 | a line naming its pharmacist and pharmacy is kept; any line keeps its product, quantity and strength |
| OrderPlacement.EnrichGivesPharmacyInfo | app/src/main/java/com/example/pharmahub11/viewmodel/OrderViewModel.kt:71-77 | after enrichment a line names its pharmacist and pharmacy when it did already, or when its product document does and the read succeeds; a document read without a pharmacist id gives the blank id |
| OrderPlacement.EnrichAll | app/src/main/java/com/example/pharmahub11/viewmodel/OrderViewModel.kt:71-77 | every line enriched, one for one and in order |
| OrderPlacement.EnrichKeepsItems | app/src/main/java/com/example/pharmahub11/viewmodel/OrderViewModel.kt:71-77 | enrichment never changes which products are ordered or in what quantity |
| OrderPlacement.StatusFor | app/src/main/java/com/example/pharmahub11/viewmodel/OrderViewModel.kt:85-86 | ORDERED exactly for cash on delivery, PAID for any other payment method |
| OrderPlacement.Enhanced | app/src/main/java/com/example/pharmahub11/viewmodel/OrderViewModel.kt:79-87 | the saved order carries the user, payment method, validated prescriptions, enriched lines and the status for the payment |
| OrderPlacement.GroupKeys | app/src/main/java/com/example/pharmahub11/viewmodel/OrderViewModel.kt:236 | the distinct pharmacist ids of the lines, each occurring among them |
| OrderPlacement.LinesOf | app/src/main/java/com/example/pharmahub11/viewmodel/OrderViewModel.kt:236 | exactly the lines of one pharmacist |
| OrderPlacement.PrescriptionRefs | app/src/main/java/com/example/pharmahub11/viewmodel/OrderViewModel.kt:256-261 | one id and image reference per prescription, in order |
| OrderPlacement.PharmacistOrderFor | app/src/main/java/com/example/pharmahub11/viewmodel/OrderViewModel.kt:240-275 | a pharmacist's record holds the order's ids, that pharmacist's lines, every prescription and the order's status |
| OrderPlacement.WithPharmacistOrdersMeaning | app/src/main/java/com/example/pharmahub11/viewmodel/OrderViewModel.kt:236-277 | writing for some keys adds one record per non-blank key under the order id and leaves every other record untouched |
| OrderPlacement.PharmacistWritesMeaning | app/src/main/java/com/example/pharmahub11/viewmodel/OrderViewModel.kt:235-278 | one record per non-blank pharmacist id of the lines, holding exactly that pharmacist's lines; other records untouched |
| OrderPlacement.SaveToPharmacistOrders | app/src/main/java/com/example/pharmahub11/viewmodel/OrderViewModel.kt:235-278 | the records written are exactly the grouped pharmacist writes |
| OrderPlacement.Increment | app/src/main/java/com/example/pharmahub11/viewmodel/OrderViewModel.kt:296-297 | a stored number moves by the delta; a missing or non-numeric field becomes the delta |
| OrderPlacement.AfterSaleAdds | app/src/main/java/com/example/pharmahub11/viewmodel/OrderViewModel.kt:290-299 | two updates of the same product add up to one update by the summed quantity |
| OrderPlacement.SaleApplied | app/src/main/java/com/example/pharmahub11/viewmodel/OrderViewModel.kt:290-299 | the updates touch no document beyond the existing products |
| OrderPlacement.SaleAppliedMeaning | app/src/main/java/com/example/pharmahub11/viewmodel/OrderViewModel.kt:290-299 | each ordered product's stock falls and sales rise once by its total ordered quantity; unordered products are untouched |
| OrderPlacement.UpdateProductQuantities | app/src/main/java/com/example/pharmahub11/viewmodel/OrderViewModel.kt:290-299 | the products after the loop of updates are the sale applied for every line |
| OrderPlacement.StockConserved | app/src/main/java/com/example/pharmahub11/viewmodel/OrderViewModel.kt:296-297 | for integer counters, stock falls and sales rise by the ordered quantity, so their sum is unchanged |
| OrderPlacement.MarkUsed | app/src/main/java/com/example/pharmahub11/viewmodel/OrderViewModel.kt:127-132 | a marked prescription names the order, has status "used" and keeps its identity |
| OrderPlacement.MarkAll | app/src/main/java/com/example/pharmahub11/viewmodel/OrderViewModel.kt:126-134 | marking touches no document beyond the existing prescriptions |
| OrderPlacement.MarkAllMeaning | app/src/main/java/com/example/pharmahub11/viewmodel/OrderViewModel.kt:126-134 | exactly the listed prescriptions are marked used in the order; the others are unchanged |
| OrderPlacement.MarkPrescriptionsAsUsed | app/src/main/java/com/example/pharmahub11/viewmodel/OrderViewModel.kt:123-141 | when the batch commits and every document exists, all listed prescriptions are marked used in the order; a failed commit or a missing document changes nothing |
| OrderPlacement.SaveOrderToDatabase | app/src/main/java/com/example/pharmahub11/viewmodel/OrderViewModel.kt:204-233 | when the batch commits and every product document is present, all the save's writes land together; a failed commit or a missing document writes nothing |
| OrderPlacement.OrderViewModel.constructor | app/src/main/java/com/example/pharmahub11/viewmodel/OrderViewModel.kt:37-45 | the three published states start unspecified |
| OrderPlacement.OrderViewModel.PlaceOrder | app/src/main/java/com/example/pharmahub11/viewmodel/OrderViewModel.kt:50-102 | no user, or a failed or unsuccessful validation, leaves the store and publishes the error; a failed save publishes "Failed to save order: " with its message and leaves the store; otherwise the enhanced order is published, saved, and its prescriptions marked exactly when the marking batch commits |
| OrderPlacement.OrderViewModel.SaveAndMark | app/src/main/java/com/example/pharmahub11/viewmodel/OrderViewModel.kt:89-97 | a failed save publishes its error and leaves the store; a successful one publishes the order, with its prescriptions marked exactly when the marking batch commits |
| OrderPlacement.OrderViewModel.ValidatePrescriptionsForOrder | app/src/main/java/com/example/pharmahub11/viewmodel/OrderViewModel.kt:174-202 | the published validation is the validation's answer; nothing else changes |
| OrderPlacement.OrderViewModel.LoadPrescriptionsForOrder | app/src/main/java/com/example/pharmahub11/viewmodel/OrderViewModel.kt:302-321 | a successful read publishes exactly the prescriptions used in that order; a failed one publishes its error |
| OrderPlacement.OrderViewModel.ResetOrderState | app/src/main/java/com/example/pharmahub11/viewmodel/OrderViewModel.kt:346-348 | the order state is cleared, the others kept |
| OrderPlacement.OrderViewModel.ResetPrescriptionValidation | app/src/main/java/com/example/pharmahub11/viewmodel/OrderViewModel.kt:350-352 | the validation state is cleared, the others kept |
| OrderPlacement.OrderViewModel.ResetPrescriptionsState | app/src/main/java/com/example/pharmahub11/viewmodel/OrderViewModel.kt:354-356 | the prescriptions state is cleared, the others kept |
| OrderPlacement.PlacedPrescriptionsUsed | app/src/main/java/com/example/pharmahub11/viewmodel/OrderViewModel.kt:89-95 | after a placement whose marking batch committed, every validated prescription is used in that order and no longer qualifies for another |
| OrderPlacement.UnmarkedPrescriptionsStillQualify | app/src/main/java/com/example/pharmahub11/viewmodel/OrderViewModel.kt:137-140 | when the marking batch fails, the save alone leaves every qualifying prescription still qualifying, so it can back another order |
| OrderFix.Entries | app/src/main/java/com/example/pharmahub11/data/FirestoreOrderFixUtil.kt:39 | the order's list when it holds one, otherwise empty |
| OrderFix.WithEntries | app/src/main/java/com/example/pharmahub11/data/FirestoreOrderFixUtil.kt:155 | the order's list becomes exactly the given one; no other field is dropped |
| OrderFix.EntryIds | app/src/main/java/com/example/pharmahub11/data/FirestoreOrderFixUtil.kt:55 | exactly the ids the order's entries name as text |
| OrderFix.FindEntry | app/src/main/java/com/example/pharmahub11/data/FirestoreOrderFixUtil.kt:111 | an entry exactly when some entry names the id, and then one of them naming it |
| OrderFix.LinkedIds | app/src/main/java/com/example/pharmahub11/data/FirestoreOrderFixUtil.kt:43-56 | exactly the ids of the documents whose usedInOrder is the order |
| OrderFix.DocFields | app/src/main/java/com/example/pharmahub11/data/FirestoreOrderFixUtil.kt:135-138 | a document's fields exactly when a document with that id exists |
| OrderFix.SetDoc | app/src/main/java/com/example/pharmahub11/data/FirestoreOrderFixUtil.kt:116 | the document with that id holds exactly the given fields; every other document is kept |
| OrderFix.Diagnose | app/src/main/java/com/example/pharmahub11/data/FirestoreOrderFixUtil.kt:23-75 | not found exactly for a missing order; a failure exactly for a list with a non-map entry; otherwise both counts and the two id differences, each the ids of one side absent from the other |
| OrderFix.ResultMap | app/src/main/java/com/example/pharmahub11/data/FirestoreOrderFixUtil.kt:24-73 | an error key exactly when there is no report; the counts-match flag compares the two counts |
| OrderFix.CheckOrderPrescriptions | app/src/main/java/com/example/pharmahub11/data/FirestoreOrderFixUtil.kt:23-75 | a thrown order read gives only its message (or "Unknown error") under "error"; a thrown prescription query gives the order's count and its message; otherwise the map filled entry by entry is the diagnostic result |
| OrderFix.CountsMatchWithDifferentIds | app/src/main/java/com/example/pharmahub11/data/FirestoreOrderFixUtil.kt:51-67 | equal counts do not mean equal ids: a one-entry order and a one-document collection differ both ways |
| OrderFix.RecreatedFields | app/src/main/java/com/example/pharmahub11/data/FirestoreOrderFixUtil.kt:116-122 | a recreated document is marked used in the order and holds exactly the five fields written |
| OrderFix.RecreateAllLinks | app/src/main/java/com/example/pharmahub11/data/FirestoreOrderFixUtil.kt:108-126 | after the first repair an id is linked exactly when it was before or it is a missing id that an entry of the order names |
| OrderFix.SetDocLinks | app/src/main/java/com/example/pharmahub11/data/FirestoreOrderFixUtil.kt:116 | after writing one document, its id is linked exactly when the new fields name the order; every other id keeps its link |
| OrderFix.RecoveredEntry | app/src/main/java/com/example/pharmahub11/data/FirestoreOrderFixUtil.kt:140-145 | an entry recovered for an id names that id |
| OrderFix.Recover | app/src/main/java/com/example/pharmahub11/data/FirestoreOrderFixUtil.kt:134-146 | when every read succeeds, one entry per id, naming that id, in order |
| OrderFix.EntryIdsAppend | app/src/main/java/com/example/pharmahub11/data/FirestoreOrderFixUtil.kt:153 | the ids of two appended lists are those of both |
| OrderFix.Appended | app/src/main/java/com/example/pharmahub11/data/FirestoreOrderFixUtil.kt:150-156 | the order's list is kept as a prefix and extended by exactly the recovered entries |
| OrderFix.RecreateMissing | app/src/main/java/com/example/pharmahub11/data/FirestoreOrderFixUtil.kt:108-126 | the batch built one set at a time is the first repair |
| OrderFix.FixOrderPrescriptions | app/src/main/java/com/example/pharmahub11/data/FirestoreOrderFixUtil.kt:82-181 | the answer and the store after are the repair outcome: false on a diagnostic error, a thrown read, a failed commit or transaction, or a missing user order; a failed diagnosis writes nothing, and a true answer means the diagnosis calls succeeded |
| OrderFix.FixOutcomeOk | app/src/main/java/com/example/pharmahub11/data/FirestoreOrderFixUtil.kt:82-181 | a successful repair had a report, every call it made succeeded, and it applied the first repair and appended exactly the recovered entries |
| OrderFix.FixRepairs | app/src/main/java/com/example/pharmahub11/data/FirestoreOrderFixUtil.kt:82-181 | after a successful repair a new diagnosis finds nothing missing on either side |
| OrderFix.RepairedLists | app/src/main/java/com/example/pharmahub11/data/FirestoreOrderFixUtil.kt:108-156 | after both repairs the order's ids and the linked ids cover each other |
| OrderFix.RecoveredIds | app/src/main/java/com/example/pharmahub11/data/FirestoreOrderFixUtil.kt:153 | appending the recovered entries adds exactly the recovered ids |
| OrderFix.LinkEntry | app/src/main/java/com/example/pharmahub11/data/FirestoreOrderFixUtil.kt:206-211 | the entry written for a prescription names its id |
| OrderFix.LinkEntries | app/src/main/java/com/example/pharmahub11/data/FirestoreOrderFixUtil.kt:205-212 | one entry per prescription, in order |
| OrderFix.LinkAll | app/src/main/java/com/example/pharmahub11/data/FirestoreOrderFixUtil.kt:195-202 | each document a listed prescription names is marked used in the order; the rest are unchanged |
| OrderFix.LinkedStore | app/src/main/java/com/example/pharmahub11/data/FirestoreOrderFixUtil.kt:188-235 | the committed batch marks the documents and sets the order's list, and the user's copy when signed in |
| OrderFix.UpdateOrderWithPrescriptions | app/src/main/java/com/example/pharmahub11/data/FirestoreOrderFixUtil.kt:188-235 | an empty list succeeds without writes; a failed commit or a missing target fails with no write; otherwise the whole batch lands |
| OrderFix.LinkEntriesIds | app/src/main/java/com/example/pharmahub11/data/FirestoreOrderFixUtil.kt:205-216 | the ids the linked order lists are exactly the prescriptions' ids |
| OrderFix.LinkAllLinks | app/src/main/java/com/example/pharmahub11/data/FirestoreOrderFixUtil.kt:195-202 | every existing document of a listed prescription is linked to the order afterwards |
| OrderFix.LinkingConsistent | app/src/main/java/com/example/pharmahub11/data/FirestoreOrderFixUtil.kt:188-235 | after linking, a diagnosis finds the order listing exactly the given prescriptions, each linked back |
| Search.InStock | app/src/main/java/com/example/pharmahub11/viewmodel/SearchViewModel.kt:82-93 | exactly the in-stock catalogue products, of the chosen category when one is set |
| Search.SearchedTexts | app/src/main/java/com/example/pharmahub11/viewmodel/SearchViewModel.kt:117-126 | every non-null text field of the product is searched, with the ingredient and strength lists joined by spaces |
| Search.Matches | app/src/main/java/com/example/pharmahub11/viewmodel/SearchViewModel.kt:114-130 | an empty query matches every product; a product whose name or category contains the query, ignoring case, matches |
| Search.MatchesOf | app/src/main/java/com/example/pharmahub11/viewmodel/SearchViewModel.kt:96-97 | exactly the products some searched text of which contains the query, ignoring case |
| Search.Rank | app/src/main/java/com/example/pharmahub11/viewmodel/SearchViewModel.kt:100-106 | 0 for an exact name, 1 for a name prefix, below 4 exactly when the name or generic name starts with the query, ignoring case |
| Search.RankedMatches | app/src/main/java/com/example/pharmahub11/viewmodel/SearchViewModel.kt:96-130 | a product ranked by its name or generic name is also a match |
| Search.NameLeTotal | app/src/main/java/com/example/pharmahub11/viewmodel/SearchViewModel.kt:107 | any two names are ordered one way or the other |
| Search.RelevanceTotal | app/src/main/java/com/example/pharmahub11/viewmodel/SearchViewModel.kt:98-107 | any two products are ordered by relevance then name one way or the other |
| Search.Insert | app/src/main/java/com/example/pharmahub11/viewmodel/SearchViewModel.kt:98-107 | inserting into a list sorted by relevance keeps it sorted and adds exactly that product |
| Search.SortByRelevance | app/src/main/java/com/example/pharmahub11/viewmodel/SearchViewModel.kt:98-107 | the results sorted by relevance class then name, a permutation of the matches |
| Search.SearchResultsMeaning | app/src/main/java/com/example/pharmahub11/viewmodel/SearchViewModel.kt:79-112 | the results are exactly the matching in-stock products (of the category), sorted by relevance |
| Search.SearchOutcome | app/src/main/java/com/example/pharmahub11/viewmodel/SearchViewModel.kt:46-77 | an empty query without category shows nothing; with a category, its in-stock products; a query shows the ranked matches; a failed fetch shows its prefixed error |
| Search.SearchShowsMatches | app/src/main/java/com/example/pharmahub11/viewmodel/SearchViewModel.kt:59-112 | a successful search with a query shows exactly the matching in-stock products of the category, sorted |
| Search.SearchViewModel.constructor | app/src/main/java/com/example/pharmahub11/viewmodel/SearchViewModel.kt:22-27 | no query, no category, nothing published |
| Search.SearchViewModel.ExecuteSearch | app/src/main/java/com/example/pharmahub11/viewmodel/SearchViewModel.kt:46-77 | the published results are the search outcome for the current query and category |
| Search.SearchViewModel.SearchProducts | app/src/main/java/com/example/pharmahub11/viewmodel/SearchViewModel.kt:29-32 | the trimmed query is remembered, the category kept, and the search rerun |
| Search.SearchViewModel.SetCategoryFilter | app/src/main/java/com/example/pharmahub11/viewmodel/SearchViewModel.kt:34-37 | the category is remembered, the query kept, and the search rerun |
| Search.SearchViewModel.ClearSearchResults | app/src/main/java/com/example/pharmahub11/viewmodel/SearchViewModel.kt:39-44 | query and category are forgotten and an empty result published |
| Search.BlankQueryFindsNothing | app/src/main/java/com/example/pharmahub11/viewmodel/SearchViewModel.kt:29-65 | a blank query without a category finds nothing |
| PrescriptionHistory.Loaded | app/src/main/java/com/example/pharmahub11/viewmodel/PrescriptionUsedViewModel.kt:37-44 | only records parsed from the user's own documents are loaded |
| PrescriptionHistory.LoadedComplete | app/src/main/java/com/example/pharmahub11/viewmodel/PrescriptionUsedViewModel.kt:37-44 | every document of the user that parses is loaded |
| PrescriptionHistory.NonPending | app/src/main/java/com/example/pharmahub11/viewmodel/PrescriptionUsedViewModel.kt:49-51 | exactly the loaded prescriptions that are not pending |
| PrescriptionHistory.Select | app/src/main/java/com/example/pharmahub11/viewmodel/PrescriptionUsedViewModel.kt:68-72 | exactly the prescriptions whose status the filter names |
| PrescriptionHistory.SelectAppend | app/src/main/java/com/example/pharmahub11/viewmodel/PrescriptionUsedViewModel.kt:68-72 | filtering keeps the list's order: it distributes over concatenation |
| PrescriptionHistory.Filtered | app/src/main/java/com/example/pharmahub11/viewmodel/PrescriptionUsedViewModel.kt:65-79 | the four status constants narrow the list; any other text, the empty filter included, keeps all of it |
| PrescriptionHistory.FilteredMeaning | app/src/main/java/com/example/pharmahub11/viewmodel/PrescriptionUsedViewModel.kt:68-72 | a status filter keeps exactly the prescriptions of that status, in any letter case |
| PrescriptionHistory.NeverPending | app/src/main/java/com/example/pharmahub11/viewmodel/PrescriptionUsedViewModel.kt:49-79 | whatever the filter, the screen never shows a pending prescription |
| PrescriptionHistory.PrescriptionUsedViewModel.constructor | app/src/main/java/com/example/pharmahub11/viewmodel/PrescriptionUsedViewModel.kt:17-30 | nothing loaded, nothing published and an empty filter |
| PrescriptionHistory.PrescriptionUsedViewModel.FilterPrescriptions | app/src/main/java/com/example/pharmahub11/viewmodel/PrescriptionUsedViewModel.kt:65-79 | the filter is remembered and, with a list loaded, its filtered view published |
| PrescriptionHistory.PrescriptionUsedViewModel.LoadPrescriptions | app/src/main/java/com/example/pharmahub11/viewmodel/PrescriptionUsedViewModel.kt:32-63 | a failure publishes its prefixed message and keeps the lists; otherwise the non-pending prescriptions are loaded and the remembered filter reapplied; loading ends false |
| Details.FirstOfProduct | app/src/main/java/com/example/pharmahub11/viewmodel/DetailsViewModel.kt:47-54 | the first cart document of the product, none exactly when the cart has no line of it |
| Details.MergeTargetAsWritten | app/src/main/java/com/example/pharmahub11/viewmodel/DetailsViewModel.kt:50-63 | as written, a line is incremented only when the product's first document is the same variant |
| Details.MergeTarget | app/src/main/java/com/example/pharmahub11/viewmodel/DetailsViewModel.kt:50-63 | the first line of the same product, strength and form; none exactly when the cart has no such line |
| Details.Incremented | app/src/main/java/com/example/pharmahub11/viewmodel/DetailsViewModel.kt:90-100 | the line at the target gains one unit; every other line is unchanged |
| Details.CartAfterAdd | app/src/main/java/com/example/pharmahub11/viewmodel/DetailsViewModel.kt:43-100 | a matching variant gains one unit; otherwise the line is appended under the new document id |
| Details.AddKeepsVariantsDistinct | app/src/main/java/com/example/pharmahub11/viewmodel/DetailsViewModel.kt:43-100 | adding to a cart with one line per variant keeps one line per variant |
| Details.AsWrittenDuplicatesVariant | app/src/main/java/com/example/pharmahub11/viewmodel/DetailsViewModel.kt:50-63 | as written, adding a variant already in the cart, but not on the product's first line, creates a second line of it |
| Details.AddOutcome | app/src/main/java/com/example/pharmahub11/viewmodel/DetailsViewModel.kt:43-100 | the outcome is a success carrying the line or an error leaving the cart as it was; no user gives "not authenticated", a thrown query its message, and a thrown write its message or the increase/add failure text |
| Details.AddOutcomeMeaning | app/src/main/java/com/example/pharmahub11/viewmodel/DetailsViewModel.kt:43-100 | success exactly with a user and both store calls succeeding, leaving one more unit of that variant and nothing else changed; any failure leaves the cart |
| Details.PendingDocIsPending | app/src/main/java/com/example/pharmahub11/viewmodel/DetailsViewModel.kt:107-113 | a document the pending query finds parses as a pending, unused prescription of that user |
| Details.PendingStatus | app/src/main/java/com/example/pharmahub11/viewmodel/DetailsViewModel.kt:102-119 | no user and a failed query publish their errors; otherwise whether the user has a pending, unused prescription |
| Details.CheckPendingPrescription | app/src/main/java/com/example/pharmahub11/viewmodel/DetailsViewModel.kt:121-140 | true exactly with a user, a successful query and a pending, unused prescription of that user |
| Details.CheckAgreesWithStatus | app/src/main/java/com/example/pharmahub11/viewmodel/DetailsViewModel.kt:102-140 | the callback answers true exactly when the status load would publish true |
| Details.ParseMonthYear | app/src/main/java/com/example/pharmahub11/viewmodel/DetailsViewModel.kt:145-148 | a date that reads as month and year contains the slash |
| Details.IsProductExpired | app/src/main/java/com/example/pharmahub11/viewmodel/DetailsViewModel.kt:142-156 | a missing or blank date never expires; an expired product has a readable date |
| Details.FormatMonthYear | app/src/main/java/com/example/pharmahub11/viewmodel/DetailsViewModel.kt:145 | the "MM/yyyy" text of a month is seven characters |
| Details.MonthYearRoundTrip | app/src/main/java/com/example/pharmahub11/viewmodel/DetailsViewModel.kt:145-148 | a formatted month and year reads back as that month and year |
| Details.YearDigits | app/src/main/java/com/example/pharmahub11/viewmodel/DetailsViewModel.kt:145 | the four digits written for a year are its decimal digits |
| Details.ParseDigitsSlash | app/src/main/java/com/example/pharmahub11/viewmodel/DetailsViewModel.kt:148 | two digit runs around a slash read as their values |
| Details.DigitsPair | app/src/main/java/com/example/pharmahub11/viewmodel/DetailsViewModel.kt:148 | two written digits read back as their value |
| Details.DigitsQuad | app/src/main/java/com/example/pharmahub11/viewmodel/DetailsViewModel.kt:148 | four written digits read back as their value |
| Details.ExpiredIff | app/src/main/java/com/example/pharmahub11/viewmodel/DetailsViewModel.kt:142-156 | a well-formed expiry date is expired exactly once its month has begun, from the first instant of the month onward |
| Details.ReviewsFor | app/src/main/java/com/example/pharmahub11/viewmodel/DetailsViewModel.kt:163-181 | exactly the readable reviews of the product, never more than were read |
| Details.ReviewsForCount | app/src/main/java/com/example/pharmahub11/viewmodel/DetailsViewModel.kt:163-181 | each review of the product occurs as many times as its document was read, any other review never: repeated documents are kept |
| Details.ReviewsForAppend | app/src/main/java/com/example/pharmahub11/viewmodel/DetailsViewModel.kt:163-181 | the reviews of two runs of documents are those of the first followed by those of the second, so the documents' order is kept |
| Details.DetailsViewModel.constructor | app/src/main/java/com/example/pharmahub11/viewmodel/DetailsViewModel.kt:34-41 | the three published states start unspecified |
| Details.DetailsViewModel.AddUpdateProductInCart | app/src/main/java/com/example/pharmahub11/viewmodel/DetailsViewModel.kt:43-100 | the published state and the cart after are the add outcome with the corrected merge rule |
| Details.DetailsViewModel.LoadPrescriptionStatus | app/src/main/java/com/example/pharmahub11/viewmodel/DetailsViewModel.kt:102-119 | the published status is the pending-prescription answer; nothing else changes |
| Details.DetailsViewModel.LoadProductReviews | app/src/main/java/com/example/pharmahub11/viewmodel/DetailsViewModel.kt:159-193 | a failed query publishes its error; otherwise the product's readable reviews |
| ProductDetailsScreen.IsProductAvailable | app/src/main/java/com/example/pharmahub11/fragments/shopping/ProductDetailsFragment.kt:286-288 | an available product is in stock, and when the available quantity does not limit it further, availability is being in stock |
| ProductDetailsScreen.AvailableIffInStock | app/src/main/java/com/example/pharmahub11/fragments/shopping/ProductDetailsFragment.kt:286-288 | once the available quantity is set to the quantity, the product is available exactly when its quantity is positive |
| ProductDetailsScreen.StrengthDisplayFor | app/src/main/java/com/example/pharmahub11/fragments/shopping/ProductDetailsFragment.kt:98-115 | no strength for an empty list, the single value for one, a chooser over all of them for more |
| ProductDetailsScreen.ButtonFor | app/src/main/java/com/example/pharmahub11/fragments/shopping/ProductDetailsFragment.kt:238-284 | the button is pressable exactly when available and no prescription of a prescription product awaits review; "under review" is shown exactly then |
| ProductDetailsScreen.LineFor | app/src/main/java/com/example/pharmahub11/fragments/shopping/ProductDetailsFragment.kt:256-259 | the line added is one unit of the product with the chosen strength |
| ProductDetailsScreen.AddDecisionMeaning | app/src/main/java/com/example/pharmahub11/fragments/shopping/ProductDetailsFragment.kt:197-221 | a line is added exactly for an unexpired, available product without a pending review blocking it; expired products are refused first |
| ProductDetailsScreen.EnabledButtonAdds | app/src/main/java/com/example/pharmahub11/fragments/shopping/ProductDetailsFragment.kt:197-284 | an enabled button never leads to the pending dialog or the out-of-stock notice |
| ProductDetailsScreen.ProductDetailsFragment.constructor | app/src/main/java/com/example/pharmahub11/fragments/shopping/ProductDetailsFragment.kt:52-107 | the available quantity is set to the quantity, and a single strength is chosen in advance |
| ProductDetailsScreen.ProductDetailsFragment.SelectStrength | app/src/main/java/com/example/pharmahub11/fragments/shopping/ProductDetailsFragment.kt:66-68 | the tapped strength becomes the chosen one |
| ProductDetailsScreen.ProductDetailsFragment.HandleAddToCart | app/src/main/java/com/example/pharmahub11/fragments/shopping/ProductDetailsFragment.kt:197-221 | the action taken is the add decision for the shown product and chosen strength |
| Billing.WithoutPrescription | app/src/main/java/com/example/pharmahub11/fragments/shopping/BillingFragment.kt:196 | the remaining list holds exactly the prescriptions whose id differs from the removed one, and is no longer |
| Billing.WithoutAppend | app/src/main/java/com/example/pharmahub11/fragments/shopping/BillingFragment.kt:196 | removal keeps the other prescriptions in their order |
| Billing.WithoutIdempotent | app/src/main/java/com/example/pharmahub11/fragments/shopping/BillingFragment.kt:196 | removing the same prescription twice is removing it once |
| Billing.ErrorText | app/src/main/java/com/example/pharmahub11/fragments/shopping/BillingFragment.kt:260-270 | a message naming invalid prescriptions, then one naming a failed validation, get fixed texts; any other message is shown as is; no message gives the default |
| Billing.MarkerPrefixShown | app/src/main/java/com/example/pharmahub11/fragments/shopping/BillingFragment.kt:265-266 | a message that starts with the validation marker is shown as the validation text |
| Billing.BuiltOrder | app/src/main/java/com/example/pharmahub11/fragments/shopping/BillingFragment.kt:305-316 | the order is "Ordered", cash on delivery, for the chosen address, products, price and prescriptions, and for the signed-in user or "" |
| Billing.PlacementStep | app/src/main/java/com/example/pharmahub11/fragments/shopping/BillingFragment.kt:304-347 | an order is placed exactly when it carries no prescription or the validation answered success with true |
| Billing.PlacedOnlyIfValidated | app/src/main/java/com/example/pharmahub11/fragments/shopping/BillingFragment.kt:322-347 | with the view model's validation, an order with prescriptions is placed exactly when the query succeeds and all of them belong to the user, are approved and exist; a failed query shows the "Prescription validation failed: " error |
| Billing.AddressAfterLoad | app/src/main/java/com/example/pharmahub11/fragments/shopping/BillingFragment.kt:204-217 | a loaded non-empty list selects its first address only when none was selected |
| Billing.BillingFragment.constructor | app/src/main/java/com/example/pharmahub11/fragments/shopping/BillingFragment.kt:66-71 | the screen starts with its arguments, an absent prescription list read as empty, no address and no order placed |
| Billing.BillingFragment.SelectAddress | app/src/main/java/com/example/pharmahub11/fragments/shopping/BillingFragment.kt:116-117 | the tapped address becomes the selected one and nothing else changes |
| Billing.BillingFragment.OnAddresses | app/src/main/java/com/example/pharmahub11/fragments/shopping/BillingFragment.kt:204-217 | the selection follows the first-address rule and nothing else changes |
| Billing.BillingFragment.RemovePrescription | app/src/main/java/com/example/pharmahub11/fragments/shopping/BillingFragment.kt:190-196 | the prescription list loses every entry with the removed id |
| Billing.BillingFragment.OnPlaceOrderClicked | app/src/main/java/com/example/pharmahub11/fragments/shopping/BillingFragment.kt:124-130 | the address reminder is shown exactly when no address is selected, else the confirmation |
| Billing.BillingFragment.PlaceOrderWithPrescriptionValidation | app/src/main/java/com/example/pharmahub11/fragments/shopping/BillingFragment.kt:304-347 | the step taken is the placement rule applied to the order built from the screen's state |
| Billing.BillingFragment.OnOrderState | app/src/main/java/com/example/pharmahub11/fragments/shopping/BillingFragment.kt:228-258 | the first success is handled once and marks the order placed; an error shows its error text; other states do nothing |
| AddReview.Truncate | app/src/main/java/com/example/pharmahub11/fragments/shopping/AddReviewFragment.kt:60 | the float-to-int conversion drops the fraction toward zero |
| AddReview.RatingLabel | app/src/main/java/com/example/pharmahub11/fragments/shopping/AddReviewFragment.kt:58-68 | each rating from one to five stars, fractions included, gets its caption; anything below one star or above five reads "Tap to rate" |
| AddReview.SubmitCheck | app/src/main/java/com/example/pharmahub11/fragments/shopping/AddReviewFragment.kt:121-138 | a review is accepted exactly with a rating, a trimmed comment of at least ten characters and a signed-in user; each failure gives its own message in the source's order |
| AddReview.PaddingIgnored | app/src/main/java/com/example/pharmahub11/fragments/shopping/AddReviewFragment.kt:123 | whitespace typed around a comment changes neither the verdict nor the kept comment |
| AddReview.SameTrimSameCheck | app/src/main/java/com/example/pharmahub11/fragments/shopping/AddReviewFragment.kt:123-138 | two comments with the same trimmed text are judged alike |
| AddReview.Kept | app/src/main/java/com/example/pharmahub11/fragments/shopping/AddReviewFragment.kt:147-155 | a blank or missing profile field is read as "" |
| AddReview.ReviewerName | app/src/main/java/com/example/pharmahub11/fragments/shopping/AddReviewFragment.kt:147-155 | the name is first and last name joined, or whichever one is given, or "Anonymous" |
| AddReview.ReviewerNameNotBlank | app/src/main/java/com/example/pharmahub11/fragments/shopping/AddReviewFragment.kt:147-155 | the reviewer name is never blank |
| AddReview.ProfileField | app/src/main/java/com/example/pharmahub11/fragments/shopping/AddReviewFragment.kt:147-155 | a profile field is read only from an existing document that holds it as a string |
| AddReview.ReviewFor | app/src/main/java/com/example/pharmahub11/fragments/shopping/AddReviewFragment.kt:143-186 | the review carries the order, product, user, rating, comment and time; its name and e-mail come from the profile, or are "Anonymous" and "" when reading the profile failed |
| AddReview.FirstMatch | app/src/main/java/com/example/pharmahub11/fragments/shopping/AddReviewFragment.kt:209 | the document chosen is the first with the same order, product and user, and none exists exactly when no document matches |
| AddReview.Saved | app/src/main/java/com/example/pharmahub11/fragments/shopping/AddReviewFragment.kt:196-214 | without an earlier review the new one is added; otherwise the first earlier one is overwritten under its own document id and nothing else changes |
| AddReview.SavedKeepsOnePerTriple | app/src/main/java/com/example/pharmahub11/fragments/shopping/AddReviewFragment.kt:188-224 | saving keeps at most one review per order, product and user, and that review is the one just saved |
| AddReview.ErrorToast | app/src/main/java/com/example/pharmahub11/fragments/shopping/AddReviewFragment.kt:231-235 | the error text is the step's message followed by the exception's message |
| AddReview.CheckAndSubmit | app/src/main/java/com/example/pharmahub11/fragments/shopping/AddReviewFragment.kt:188-224 | the screen closes exactly when both the lookup and the write succeed, and only then is the collection changed; "updated" is shown exactly when an earlier review existed |
| AddReview.AddReviewFragment.constructor | app/src/main/java/com/example/pharmahub11/fragments/shopping/AddReviewFragment.kt:31-46 | the screen starts for its order and product with the submit button enabled |
| AddReview.AddReviewFragment.CheckExistingReview | app/src/main/java/com/example/pharmahub11/fragments/shopping/AddReviewFragment.kt:95-119 | an earlier review of this user is shown for editing, with the caption "Update Review", exactly when the lookup succeeds and finds one |
| AddReview.AddReviewFragment.SubmitReview | app/src/main/java/com/example/pharmahub11/fragments/shopping/AddReviewFragment.kt:121-142 | the verdict is the submission check; an accepted review disables the button with "Submitting...", a refused one leaves the screen as it was |
| AddReview.AddReviewFragment.FinishSubmit | app/src/main/java/com/example/pharmahub11/fragments/shopping/AddReviewFragment.kt:226-236 | a failed lookup or write enables the button again under "Submit Review"; success leaves it disabled as the screen closes |
| AddReview.ReviewForNamed | app/src/main/java/com/example/pharmahub11/fragments/shopping/AddReviewFragment.kt:143-186 | a review is always written with a non-blank reviewer name, whether or not the profile could be read |
| AddReview.SubmittedReviewIsUnique | app/src/main/java/com/example/pharmahub11/fragments/shopping/AddReviewFragment.kt:121-224 | a review that passes the checks and is written is then the only one for its order, product and user, with a non-blank comment and name |
| Support.ProfileUser | app/src/main/java/com/example/pharmahub11/viewmodel/SupportViewModel.kt:45-54 | an existing profile gives its names, or "", and its e-mail, else the account's, else ""; a missing profile gives only the account's e-mail |
| Support.NewComplaint | app/src/main/java/com/example/pharmahub11/viewmodel/SupportViewModel.kt:91-110 | the complaint is pending, of the customer-service type and for the signed-in user; its e-mail falls back to the account's, then to a placeholder; its name is the trimmed full name or "Anonymous User", never blank |
| Support.WrittenFields | app/src/main/java/com/example/pharmahub11/viewmodel/SupportViewModel.kt:95-110 | the written document holds the complaint's stored fields and its id |
| Support.WrittenReadsBack | app/src/main/java/com/example/pharmahub11/viewmodel/SupportViewModel.kt:95-112 | reading the written document back gives the same complaint |
| Support.SupportViewModel.constructor | app/src/main/java/com/example/pharmahub11/viewmodel/SupportViewModel.kt:20-31 | both published streams start empty |
| Support.SupportViewModel.FetchUserData | app/src/main/java/com/example/pharmahub11/viewmodel/SupportViewModel.kt:36-65 | the profile stream gets Loading, then the not-signed-in error, the read's failure, or the profile read |
| Support.SupportViewModel.SubmitComplaint | app/src/main/java/com/example/pharmahub11/viewmodel/SupportViewModel.kt:67-120 | the complaint stream gets the states of the submission, and a complaint is stored exactly when the text is not blank, a user is signed in and both calls succeed |
| Support.ComplaintStates | app/src/main/java/com/example/pharmahub11/viewmodel/SupportViewModel.kt:67-120 | a blank text is refused without loading; otherwise Loading is followed by the first failure met or by success with the new id, and success comes exactly when the complaint is stored |
| Support.StoredComplaintMeaning | app/src/main/java/com/example/pharmahub11/viewmodel/SupportViewModel.kt:91-112 | a stored complaint carries the submitted text, is pending and of the customer-service type, names its author without blanks and reads back from its document |
| CustomerService.ValidateComplaint | app/src/main/java/com/example/pharmahub11/fragments/settings/CustomerServiceFragment.kt:74-82 | the complaint goes to confirmation exactly when its trimmed text has at least ten characters, and the trimmed text is what is confirmed; empty and short texts get their own messages |
| CustomerService.PaddingIgnored | app/src/main/java/com/example/pharmahub11/fragments/settings/CustomerServiceFragment.kt:75 | whitespace around a complaint changes neither the verdict nor the confirmed text |
| CustomerService.ConfirmedUnchanged | app/src/main/java/com/example/pharmahub11/fragments/settings/CustomerServiceFragment.kt:74-82 | a long enough text without surrounding whitespace is confirmed as typed |
| CustomerService.PerformanceTextAccepted | app/src/main/java/com/example/pharmahub11/fragments/settings/CustomerServiceFragment.kt:61-82 | the first quick complaint passes the check unchanged |
| CustomerService.PaymentTextAccepted | app/src/main/java/com/example/pharmahub11/fragments/settings/CustomerServiceFragment.kt:65-82 | the second quick complaint passes the check unchanged |
| CustomerService.DeliveryTextAccepted | app/src/main/java/com/example/pharmahub11/fragments/settings/CustomerServiceFragment.kt:69-82 | the third quick complaint passes the check unchanged |
| ImageValidation.FileSize | app/src/main/java/com/example/pharmahub11/data/PrescriptionValidator.kt:74-83 | the size is what the stream reports, 0 without a stream, -1 when reading fails |
| ImageValidation.ValidatePrescriptionImage | app/src/main/java/com/example/pharmahub11/data/PrescriptionValidator.kt:34-88 | an image is valid exactly when its bounds were read, it is at least 800 by 800 and at least 20 KiB; the resolution is checked before the size, and each failure has its own reason |
| ImageValidation.ValidUpward | app/src/main/java/com/example/pharmahub11/data/PrescriptionValidator.kt:48-58 | an image at least as wide, as tall and as large as a valid one is valid |
| ImageValidation.UnreadableSizeRejected | app/src/main/java/com/example/pharmahub11/data/PrescriptionValidator.kt:53-83 | an image whose size cannot be read is never valid |
| Location.LocationFragment.constructor | app/src/main/java/com/example/pharmahub11/locations/LocationFragment.kt:40-54 | the screen starts with no location, no taps, no code and nothing confirmed, within its invariant |
| Location.LocationFragment.HumanCheck | app/src/main/java/com/example/pharmahub11/locations/LocationFragment.kt:232-257 | after a location failure only the typed code decides; otherwise the check passes exactly with enough time since loading and since verification began, a tap near the marker and a tap counted, and the first unmet condition names its message |
| Location.LocationFragment.StartLocationFetch | app/src/main/java/com/example/pharmahub11/locations/LocationFragment.kt:141-144 | the load time is taken and nothing else changes |
| Location.LocationFragment.HandleLocationFailure | app/src/main/java/com/example/pharmahub11/locations/LocationFragment.kt:270-290 | the fallback starts with one of the five codes |
| Location.LocationFragment.OnLastLocation | app/src/main/java/com/example/pharmahub11/locations/LocationFragment.kt:147-161 | a location is taken and starts the verification clock; no location starts the fallback |
| Location.LocationFragment.HandleMapClick | app/src/main/java/com/example/pharmahub11/locations/LocationFragment.kt:203-213 | every tap is counted, and only a tap within 500 m moves the location and counts as touching the marker |
| Location.LocationFragment.OnTapSettled | app/src/main/java/com/example/pharmahub11/locations/LocationFragment.kt:217-223 | the location is confirmed and the button shown exactly when the check passes or it already was |
| Location.LocationFragment.OnCaptchaChanged | app/src/main/java/com/example/pharmahub11/locations/LocationFragment.kt:111-121 | text whose upper-case form is the code confirms the location and shows the button |
| Location.LocationFragment.OnConfirmClicked | app/src/main/java/com/example/pharmahub11/locations/LocationFragment.kt:97-103 | a passing check hands back the location as human-verified with the time since loading; otherwise the check's message and the refusal are shown |
| Location.CountCheckNeverRefuses | app/src/main/java/com/example/pharmahub11/locations/LocationFragment.kt:232-257 | on a screen in its invariant the tap-count branch never refuses, since a tap near the marker is always counted |
| Location.UpperOfLower | app/src/main/java/com/example/pharmahub11/locations/LocationFragment.kt:116 | a code typed in lower case confirms the fallback |

## Left out

- Calls to the document store, authentication, image hosting and push messaging. Collections become sequences or maps passed in, and the signed-in user is an `Option`. Where a modelled operation reacts to a failed call, that call's outcome is an input, except for the paths the lines below name: a `Call` (success, or failure with an optional message), an optional error message (`fetchError`, `failure`, `castError`), a flag such as `accepted`, or a `Resource` already in its error state. Batches, transactions and snapshot listeners become one step over those values. Delivery order and retries belong to the vendor SDK.
- `Cart.CartViewModel.ChangeQuantity` and `Cart.CartViewModel.DeleteCartProduct` return the write they request. The source publishes an error when that write fails; a failed write is not represented.
- `OrderPlacement.OrderViewModel.PlaceOrder` takes the store's message for a save batch that fails on a missing product document as the parameter `storeError`. The store's own wording is not modelled.
- `OrderPlacement.ValidatePrescriptions` gives the validated records in the order they were requested. The store's `whereIn` query on document ids returns them ordered by document id, so the order of an order's `prescriptionData` can differ from the source's. The records themselves are the same.
- Query ordering done by the store (`orderBy` on timestamps) and its `whereIn` size limit. The store's sequence order stands in for the returned order.
- Coroutines and the publication timing of LiveData, StateFlow and SharedFlow. The search debounce and job cancellation are not modelled. Only the resulting state is, with published values kept as sequences where their order matters.
- Floating-point price arithmetic (`calculatePrice`, `getProductPrice`, `discountedPrice`, the pharmacist order total). Prices are carried as `real` values and never computed with.
- The clock, `UUID.randomUUID` and `Random` are parameters: `now`, the new ids, and the captcha index `pick`.
- Date formatting and parsing with `SimpleDateFormat`, locales and time zones. Dates are integers in milliseconds. Month/year expiry works on integers, and lenient parsing beyond month rollover is not modelled.
- The haversine distance in `LocationFragment.calculateDistance`. A tap's distance is the boolean `near` (within 500 m).
- Unicode case mapping and whitespace. `lowercase`, `uppercase`, `equals(ignoreCase)`, `trim` and `isBlank` are modelled over ASCII.
- Rendering, view binding, adapters, Glide, dialogs, toasts text layout, navigation and notifications. Screens return what they would show as values.
- Bitmap decoding and stream reading in `PrescriptionValidator`. The decoded bounds and the stream's reported size are inputs.
- `FirebaseCommon` (add, increase, decrease of cart documents) is not part of this model. An increase is one more unit on the document, an add appends a document, and `ChangeQuantity` returns the effect it would request.
- `Address` and `Resource` are not part of this model. Their shapes are taken from how the modelled files use them.
- `OrderViewModel.verifyOrderPrescriptions` only writes log lines and is not modelled.
- `CartViewModel.clearRejectedPrescription`, `markPrescriptionAsUsed`, `checkPrescriptionValidity`, `getPrescriptionData`, `viewPrescription` and `getUserPrescriptions` are not modelled. They are single store reads or writes outside the gating logic. `hasPendingPrescription` and `hasPendingPrescriptionForProducts` appear only as predicates.
- A stored value that is present but not a string is read as absent, where `getString` would throw. This covers the profile reads in `Support.ProfileUser` and `AddReview.ProfileField`.
- `AddReview.CheckAndSubmit` does not repeat the second signed-in check in `checkAndSubmitReview`. It is given the user already checked by `submitReview`.
- `Location.LocationFragment.HandleMapClick` counts taps with an unbounded integer. It does not wrap at `Int.MAX_VALUE`.
- `Search.SortByRelevance` states the order and the permutation. It does not state that ties in both rank and name keep their input order, which `sortedWith` does.
- `Cart.CartViewModel.LoadPrescriptions` states which prescriptions are loaded, not their order by timestamp.
- `OrderPlacement.OrderViewModel.LoadPrescriptionsForOrder` states which prescriptions are loaded, not their order by timestamp.
- `OrderDetail.ViewFor` builds the normal view with the corrected review rule of the Findings table (`NormalViewFor`), not the written one (`NormalViewAsWritten`). A DELIVERED order therefore shows the review button here, which the source never shows.
- `OrderDetail.OrderDetailFragment.constructor` keeps its view equal to `ViewFor`, so the screen opens with the corrected review rule: a DELIVERED order shows the review button, which the source never shows.
- `OrderDetail.OrderDetailFragment.UpdateOrderStatus` redraws through `ViewFor`, so a DELIVERED status shows the review button, which the source never shows.
- `OrderDetail.OrderDetailFragment.OnOrderSnapshot` applies the status through `UpdateOrderStatus`, so a DELIVERED status shows the review button, which the source never shows.
- `Details.DetailsViewModel.AddUpdateProductInCart` follows the corrected merge rule below. A first cart document that cannot be read as a line is not represented: the source then publishes nothing, but here cart documents are always lines.
- `Support.SupportViewModel.constructor` starts with nothing published. The source calls `fetchUserData` on creation; here that is a separate `FetchUserData` call.

## Findings

| source | as written | input that shows it | evidently intended | confidence | as-written member | corrected member |
|---|---|---|---|---|---|---|
| app/src/main/java/com/example/pharmahub11/fragments/settings/OrderDetailFragment.kt:239-256 | the review button is shown only on the last step and only for a delivered order, but the last customer-visible step is not "Delivered" | any order status; a delivered order sits on step 3, which is not the last, and cannot be cancelled, so both buttons are hidden | a delivered order shows the review button and no cancel button | not executed | OrderDetail.ReviewNeverShownAsWritten | OrderDetail.ButtonsFollowStatus |
| app/src/main/java/com/example/pharmahub11/viewmodel/DetailsViewModel.kt:50-63 | only the product's first cart document is compared with the added variant; any other variant is appended as a new document | a cart holding strengths "10mg" then "20mg" of one product, and adding "20mg" again | an existing line of the same product, strength and form is incremented, so each variant has one line | not executed | Details.AsWrittenDuplicatesVariant | Details.AddKeepsVariantsDistinct |
