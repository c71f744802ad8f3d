# Juice shop checkout and admin, modelled in Dafny

This project models the ordering core of a juice shop's web front end:
- the checkout session that carries a customer through the address, payment, payment gateway and success stages;
- the single-page order form on the cart page;
- the five-step progress indicator;
- the admin pages for orders, categories, products and the dashboard;
- the category filter of the menu;
- the pure parts of the backend helper library. These are the list fetches, the row an order insert writes, the stored file name of an uploaded image, and the storage path an image deletion removes.

How the model is built:
- **Checkout session.** The shared checkout state is a class (`Checkout.CheckoutStore`) whose setters update its fields in place.
- **Pages.** Each page's component state is a class whose methods are the page's handlers.
- **Backend calls.** Every call into the hosted backend is a parameter holding the outcome that call would have: `Outcome`, `Result`, or a `bool` for "the insert succeeded".
- **Navigation.** Router calls are returned as a `Nav` value.
- **Guard effects.** The "redirect to /order" effect of each stage is a function from the session and the cart to an `Entry`.
- **Asynchronous handlers.** A handler whose button is disabled while it runs is split in two. A `Begin…` method makes the checks before the first awaited call. A `Complete…` method applies the awaited calls' outcomes and requires the in-flight flag.
- **Backend call order.** The admin product handlers return the calls they make, in order, as a sequence of effects. They are specified by the functions `SubmitRun` and `DeleteRun`.

JavaScript's own string operations are written out in `Strings`:
- `String.prototype.trim`, with the ECMAScript white-space and line-terminator set;
- the `^\d{n}$` tests;
- `split(".").pop()`;
- `split(sep)[1]`;
- `String(n)` on integers.

`Lists` holds the `filter`/`map` shapes the pages use to drop or replace a row by id.

## Model

| member | source | states |
|---|---|---|
| Checkout.CheckoutStore.constructor | src/context/CheckoutContext.tsx:32-37 | a new checkout session has empty name and email, no address, no payment method, and is not complete |
| Checkout.CheckoutStore.SetCustomerInfo | src/context/CheckoutContext.tsx:39-42 | sets name and email; every other part of the session is unchanged |
| Checkout.CheckoutStore.SetAddress | src/context/CheckoutContext.tsx:44-46 | stores the address; every other part of the session is unchanged |
| Checkout.CheckoutStore.SetPaymentMethod | src/context/CheckoutContext.tsx:48-50 | stores the payment method; every other part of the session is unchanged |
| Checkout.CheckoutStore.SetPaymentComplete | src/context/CheckoutContext.tsx:52-54 | sets the completion flag; every other part of the session is unchanged |
| Checkout.CheckoutStore.ResetCheckout | src/context/CheckoutContext.tsx:56-62 | the session is the fresh session again, whatever it was |
| Cart.OrderItems | src/app/checkout/gateway/page.tsx:41-46 | one order item per cart line, in order, with the line's product id, name, price and quantity |
| Cart.OrderItemAmounts | src/app/order/page.tsx:35-40 | each order item's amount (price times quantity) equals its cart line's amount |
| Cart.OrderFromCart | src/app/checkout/gateway/page.tsx:38-48 | the submitted order carries the customer's name and email, the cart's items and the cart's total |
| AddressStage.AddressEntry | src/app/checkout/address/page.tsx:27-33 | the address stage shows exactly when a customer name is set and the cart is non-empty; otherwise it redirects to /order |
| AddressStage.InitialForm | src/app/checkout/address/page.tsx:24 | the form starts from the saved address, or all fields empty when none is saved |
| AddressStage.WithField | src/app/checkout/address/page.tsx:35-37 | the edited field takes the new value and every other field keeps its value |
| AddressStage.ValidateAddress | src/app/checkout/address/page.tsx:39-63 | rejected for a missing field exactly when a required field is blank after trimming; rejected for the phone exactly when the fields are present and the trimmed phone is not ten digits; rejected for the pincode exactly when the fields and phone pass and the trimmed pincode is not six digits; otherwise accepted with every field trimmed |
| AddressStage.AcceptedAddressIsClean | src/app/checkout/address/page.tsx:53-61 | an accepted address has every required field non-empty and unpadded, a ten-digit phone and a six-digit pincode, and validating it again accepts it unchanged |
| AddressStage.Line2NotRequired | src/app/checkout/address/page.tsx:41 | the second address line never decides whether the form is rejected, nor which error it shows |
| AddressStage.EightDigitPhoneRefused | src/app/checkout/address/page.tsx:45-48 | with every other required field filled, an eight-digit phone is refused with the phone error |
| AddressStage.TenDigitPhoneAccepted | src/app/checkout/address/page.tsx:41-62 | with the other required fields filled, a ten-digit phone and a six-digit pincode are accepted |
| AddressStage.AddressPage.constructor | src/app/checkout/address/page.tsx:24-25 | the form starts as the initial form and no error shows |
| AddressStage.AddressPage.Update | src/app/checkout/address/page.tsx:35-37 | the form changes in the edited field only |
| AddressStage.AddressPage.HandleSubmit | src/app/checkout/address/page.tsx:39-63 | acts on the verdict of `ValidateAddress`: a rejected form shows its error, leaves the session alone and stays; an accepted form stores the trimmed address (the rest of the session unchanged) and goes to the payment stage; the form itself is never changed |
| AddressStage.AddressPage.BackToCart | src/app/checkout/address/page.tsx:186 | goes to /order |
| PaymentStage.PaymentEntry | src/app/checkout/payment/page.tsx:23-29 | the payment stage shows exactly when an address is saved and the cart is non-empty; otherwise it redirects to /order |
| PaymentStage.GatewayFor | src/app/checkout/payment/page.tsx:37-41 | the gateway route carries the cash-on-delivery query exactly for cash on delivery |
| PaymentStage.SummaryLine | src/app/checkout/payment/page.tsx:65 | the address summary is the delivery line of the success page with ", state" after the city |
| PaymentStage.PaymentPage.constructor | src/app/checkout/payment/page.tsx:20-21 | the selection starts as the saved method, with no error |
| PaymentStage.PaymentPage.Choose | src/app/checkout/payment/page.tsx:83 | selecting a method makes it the selection and clears the error |
| PaymentStage.PaymentPage.HandleContinue | src/app/checkout/payment/page.tsx:31-42 | with no selection: shows the error, the session is unchanged, and the page stays; otherwise: stores the method in the session and goes to the gateway for that method |
| PaymentStage.PaymentPage.Back | src/app/checkout/payment/page.tsx:121 | goes to the address stage |
| GatewayStage.GatewayEntry | src/app/checkout/gateway/page.tsx:18-24 | the gateway shows exactly when a method and an address are saved and the cart is non-empty; otherwise it redirects to /order |
| GatewayStage.GatewayPage.constructor | src/app/checkout/gateway/page.tsx:15-16 | not processing, no error |
| GatewayStage.GatewayPage.BeginPay | src/app/checkout/gateway/page.tsx:28-48 | does nothing while processing; otherwise starts processing, clears the error, waits only for non-cash methods, and requests the order built from the session's name and email and the cart |
| GatewayStage.GatewayPage.CompletePay | src/app/checkout/gateway/page.tsx:50-57 | if the insert succeeds, it marks the payment complete, empties the cart and pushes the success stage. Both navigations are issued: the push to the success stage, and the gateway's own guard, which redirects to /order now that the cart is empty. If it fails, it shows the failure message, stops processing, and leaves the session and cart unchanged |
| GatewayStage.GatewayPage.ChangeMethod | src/app/checkout/gateway/page.tsx:196-199 | goes to the payment stage, except while processing (the button is disabled) |
| SuccessStage.SuccessEntry | src/app/checkout/success/page.tsx:14-20 | the success stage shows exactly when the payment is complete; otherwise it redirects to /order |
| SuccessStage.MethodLabel | src/app/checkout/success/page.tsx:71 | the payment row always shows some text |
| SuccessStage.MethodLabelInjective | src/app/checkout/success/page.tsx:22-26 | different methods (and no method) show different texts |
| SuccessStage.DeliveryLine | src/app/checkout/success/page.tsx:79 | the delivery line's length is the sum of its parts |
| SuccessStage.DeliveryLineParts | src/app/checkout/success/page.tsx:79 | the delivery line starts with the first address line, has ", line 2" right after it when line 2 is non-empty, and ends with the city part |
| SuccessStage.CityPart | src/app/checkout/success/page.tsx:79 | the end of the delivery line is ", ", the city, " — " and the pincode, in that order |
| SuccessStage.DeliveryBlock | src/app/checkout/success/page.tsx:74-81 | the delivery block shows exactly when an address is saved, headed by the addressee's name |
| SuccessStage.HandleBackToHome | src/app/checkout/success/page.tsx:28-30 | either exit link resets the session, after which the success stage would redirect, and goes to the menu or the home page |
| OrderPlacement.LineAmounts | src/app/order/page.tsx:166 | one amount per cart line, each its price times its quantity |
| OrderPlacement.ViewOf | src/app/order/page.tsx:93-107 | the confirmation shows exactly once the order is placed; the empty-cart view exactly when not placed and the cart is empty; otherwise the summary, whose amounts are the cart lines' price times quantity, line by line, and whose total is the cart's total |
| OrderPlacement.OrderPage.constructor | src/app/order/page.tsx:18-22 | nothing placed, not placing, no error, empty name and email |
| OrderPlacement.OrderPage.EditName | src/app/order/page.tsx:207 | the name input changes the name only |
| OrderPlacement.OrderPage.EditEmail | src/app/order/page.tsx:217 | the email input changes the email only |
| OrderPlacement.OrderPage.BeginPlaceOrder | src/app/order/page.tsx:24-30 | with a blank name or email it shows the error and requests nothing. Otherwise it starts placing and requests the order with the trimmed, non-empty, unpadded name and email and the cart's items and total |
| OrderPlacement.OrderPage.CompletePlaceOrder | src/app/order/page.tsx:31-50 | either outcome stops placing. Success empties the cart and marks the order placed. Failure shows the failure message and changes neither the cart nor the placed flag |
| CheckoutSteps.Render | src/components/CheckoutSteps.tsx:11-47 | five steps in order, each completed before the current position, active at it, pending after; a tick on completed steps and the step's own icon on the current and later steps; a connector after every step but the last, green exactly before the current position |
| CheckoutSteps.CountsFrom | src/components/CheckoutSteps.tsx:14-26 | from any step on, the completed steps number the current position clamped to that range, and at most one step is active |
| CheckoutSteps.StepCounts | src/components/CheckoutSteps.tsx:18-26 | the completed steps number the current position clamped to 0..5; exactly one step is active when the position is in range, none otherwise |
| CheckoutSteps.CompletedPrefix | src/components/CheckoutSteps.tsx:18-24 | completed steps form a prefix, and every step after the active or a pending step is pending |
| AdminOrders.StatusColour | src/app/admin/orders/page.tsx:8-16 | the grey fallback colour is used exactly for statuses outside the five known ones |
| AdminOrders.OptionLabel | src/app/admin/orders/page.tsx:137 | the option label has the status's length, upper-cases a lowercase first letter and keeps the rest |
| AdminOrders.DisplayItems | src/app/admin/orders/page.tsx:116 | an order's items, or none when its items are missing |
| AdminOrders.ItemAmounts | src/app/admin/orders/page.tsx:122 | one amount per displayed item, each its price times its quantity |
| AdminOrders.AdminOrdersPage.constructor | src/app/admin/orders/page.tsx:19-21 | no orders, loading, nothing expanded |
| AdminOrders.AdminOrdersPage.LoadData | src/app/admin/orders/page.tsx:23-32 | stops loading; a successful fetch replaces the list, a failed one keeps it |
| AdminOrders.AdminOrdersPage.HandleStatusChange | src/app/admin/orders/page.tsx:38-47 | a successful update replaces every order with that id by the updated row and keeps the others in place; a failed one changes nothing |
| AdminOrders.AdminOrdersPage.HandleDelete | src/app/admin/orders/page.tsx:49-57 | asks for confirmation; a confirmed, successful deletion drops exactly the orders with that id, keeping the others in order; otherwise the list is unchanged |
| AdminOrders.AdminOrdersPage.ToggleExpanded | src/app/admin/orders/page.tsx:82 | clicking the expanded order collapses it; clicking any other expands it |
| AdminCategories.SubmitRequest | src/app/admin/categories/page.tsx:62-75 | no request exactly when the name is blank. Otherwise the request carries the trimmed, non-empty name. It is an update of the edited id exactly when that id is a non-empty string, and a creation otherwise |
| AdminCategories.AdminCategoriesPage.constructor | src/app/admin/categories/page.tsx:15-21 | no categories, loading, form hidden, nothing edited, empty name, not saving, no error |
| AdminCategories.AdminCategoriesPage.LoadData | src/app/admin/categories/page.tsx:23-32 | stops loading; a successful fetch replaces the list, a failed one keeps it; the form is untouched |
| AdminCategories.AdminCategoriesPage.ResetForm | src/app/admin/categories/page.tsx:38-43 | empties the name, ends editing, hides the form and clears the error |
| AdminCategories.AdminCategoriesPage.OpenNew | src/app/admin/categories/page.tsx:96-99 | an empty form for a new category is shown |
| AdminCategories.AdminCategoriesPage.HandleEdit | src/app/admin/categories/page.tsx:45-50 | the form shows the category's name and edits its id |
| AdminCategories.AdminCategoriesPage.EditName | src/app/admin/categories/page.tsx:123 | the name input changes the name only |
| AdminCategories.AdminCategoriesPage.HandleDelete | src/app/admin/categories/page.tsx:52-60 | a confirmed, successful deletion drops exactly the categories with that id; otherwise the list is unchanged |
| AdminCategories.AdminCategoriesPage.BeginSubmit | src/app/admin/categories/page.tsx:62-69 | does nothing while saving; with a blank name it shows the required-name error; otherwise it starts saving and issues `SubmitRequest` |
| AdminCategories.AdminCategoriesPage.CompleteSubmit | src/app/admin/categories/page.tsx:70-83 | stops saving either way. A successful save resets the form and reloads the list. A failed one keeps the form and shows the thrown error's message, or the fallback text for a value that is not an Error |
| Outcomes.MessageOr | src/app/admin/categories/page.tsx:79 | an Error's own message, or the fallback for any other thrown value |
| AdminProducts.FormOf | src/app/admin/products/page.tsx:64-71 | the edit form holds the product's name and description; its price text is all digits exactly when the price is non-negative, and then reads back as the price; a missing category or image becomes "" |
| AdminProducts.NullIfEmpty | src/app/admin/products/page.tsx:112-113 | null exactly for the empty string, the string itself otherwise |
| AdminProducts.Payload | src/app/admin/products/page.tsx:108-114 | the name and description are the form's trimmed name and description, the price text, null for an empty category or image URL |
| AdminProducts.SaveRequest | src/app/admin/products/page.tsx:116-120 | an update of the edited id exactly when that id is a non-empty string, a creation otherwise, with the payload for the given image URL |
| AdminProducts.SubmitRun | src/app/admin/products/page.tsx:99-122 | a submit that passes its checks always makes at least one call |
| AdminProducts.SubmitOrder | src/app/admin/products/page.tsx:99-120 | the old image is deleted only first and only when a new file replaces an existing image of an edited product; the upload comes first or right after that deletion, and never after a deletion that threw; the save comes last, only after every earlier call succeeded, and stores the uploaded URL when a file was chosen; no product is deleted |
| AdminProducts.SubmitSucceeds | src/app/admin/products/page.tsx:98-125 | the submit fails exactly when one of the calls it needs throws |
| AdminProducts.SuccessfulSubmitOrder | src/app/admin/products/page.tsx:99-122 | a successful submit makes exactly the needed calls: the deletion (if replacing), the upload (if a file was chosen), then the save |
| AdminProducts.DeleteRun | src/app/admin/products/page.tsx:77-88 | nothing without confirmation. Otherwise the image is deleted first when the product has a non-empty image URL, then the product: one call for the image when there is one, and one for the product unless the image's deletion threw. The calls stop at the first that throws, and the run fails exactly when a needed call throws |
| AdminProducts.EditedPayload | src/app/admin/products/page.tsx:108-114 | the payload of a product's own, unchanged form is the product's fields again |
| AdminProducts.EditedFormComplete | src/app/admin/products/page.tsx:92 | a product's own form passes the required-fields check when its name is non-empty and unpadded |
| AdminProducts.EditThenSaveRoundTrip | src/app/admin/products/page.tsx:116-117 | editing a product and saving it unchanged makes exactly one call, the update of that product with its own fields |
| AdminProducts.AdminProductsPage.constructor | src/app/admin/products/page.tsx:27-35 | empty lists, loading, form hidden and empty, no file, not saving, no error |
| AdminProducts.AdminProductsPage.LoadData | src/app/admin/products/page.tsx:37-50 | stops loading; when both fetches succeed both lists are replaced, otherwise both are kept; the form is untouched |
| AdminProducts.AdminProductsPage.ResetForm | src/app/admin/products/page.tsx:56-62 | empty form, no file, not editing, form hidden, no error |
| AdminProducts.AdminProductsPage.OpenNew | src/app/admin/products/page.tsx:141-144 | an empty form for a new product is shown |
| AdminProducts.AdminProductsPage.HandleEdit | src/app/admin/products/page.tsx:64-75 | the form is the product's own form, editing its id |
| AdminProducts.AdminProductsPage.EditForm | src/app/admin/products/page.tsx:168-213 | the inputs change the form and the chosen file only |
| AdminProducts.AdminProductsPage.HandleDelete | src/app/admin/products/page.tsx:77-88 | makes the calls of `DeleteRun`; when they all succeed, the products with that id are dropped; otherwise the list is unchanged |
| AdminProducts.AdminProductsPage.BeginSubmit | src/app/admin/products/page.tsx:90-97 | does nothing while saving. It starts exactly when the trimmed name and the price text are both non-empty, and then returns the submission captured at that moment: the form, the chosen file and the product being edited. Otherwise it shows the required-fields error |
| AdminProducts.SubmitCalls | src/app/admin/products/page.tsx:99-120 | the calls made, and the error thrown if any, are those of `SubmitRun` for the submission and the outcomes |
| AdminProducts.AdminProductsPage.CompleteSubmit | src/app/admin/products/page.tsx:98-128 | makes the calls of `SubmitRun` for the submission captured when the handler started, even if the form was edited meanwhile, and stops saving. Success resets the form and reloads both lists. Failure keeps the form and shows the thrown error's message or the fallback text |
| AdminDashboard.FoldIsSum | src/app/admin/page.tsx:23 | the left fold `reduce` performs, from any start, is the start plus the sum of the totals |
| AdminDashboard.Revenue | src/app/admin/page.tsx:23 | the revenue is the sum of the orders' totals |
| AdminDashboard.RevenueAppend | src/app/admin/page.tsx:23 | the revenue of two lists together is the sum of their revenues |
| AdminDashboard.RevenueNonNegative | src/app/admin/page.tsx:23 | orders with non-negative totals give non-negative revenue |
| AdminDashboard.DashboardPage.constructor | src/app/admin/page.tsx:8-9 | all counts zero, loading |
| AdminDashboard.DashboardPage.Load | src/app/admin/page.tsx:11-32 | stops loading. When all three fetches succeed, the stats are the three list lengths and the revenue. When any fails, the stats are unchanged |
| Menu.Filtered | src/app/menu/page.tsx:32-35 | the "all" tab shows every product; no tab shows more products than there are |
| Menu.FilteredIsSubsequence | src/app/menu/page.tsx:32-35 | the filtered list keeps the products' order and, for a category tab, holds exactly the products of that category, each as often as it is in the list |
| Menu.Loaded | src/app/menu/page.tsx:14-30 | both lists are shown when both fetches succeed; if either fails, both stay empty |
| Api.FetchList | src/lib/api.ts:9-10 | an error is thrown exactly when the backend reports one; otherwise the rows, or an empty list when there are none |
| Api.InsertedRow | src/lib/api.ts:107 | the inserted row keeps every submitted field and has status "pending" |
| Api.FileExtension | src/lib/api.ts:137 | the extension is the file name's suffix after its last ".", contains no ".", and is the whole name when there is no "." |
| Api.StoredFileName | src/lib/api.ts:137-138 | the stored file name starts with the time-and-random stem and a ".", and has the uploaded file's extension, whatever the stem |
| Api.StoragePath | src/lib/api.ts:152-158 | nothing is removed exactly when the path has no "/product-images/"; otherwise the path removed is the text that starts right after the first "/product-images/" and ends at the next one or at the end of the pathname, and it never contains the marker |
| Api.PublicPathRoundTrip | src/lib/api.ts:136-158 | deleting by a public URL made of a prefix, the bucket marker and a stored name removes exactly that stored name |
| Strings.Trim | src/app/checkout/address/page.tsx:41 | a trimmed string is no longer than the input and starts and ends with no white space |
| Strings.TrimInfix | src/app/checkout/address/page.tsx:41 | trimming removes only white space, and only from the two ends |
| Strings.TrimIdempotent | src/app/checkout/address/page.tsx:54-60 | trimming twice is trimming once, and trimming leaves a string unchanged exactly when it is unpadded |
| Strings.IsBlank | src/app/order/page.tsx:25 | `!s.trim()` holds exactly when every character of the string is white space or a line terminator |
| Strings.AfterLast | src/lib/api.ts:137 | the part after the last separator is a suffix without the separator, preceded by the separator when shorter than the input |
| Strings.AfterLastOfJoin | src/lib/api.ts:138 | the text after the last "." of `stem + "." + ext` is `ext`, when `ext` has no "." |
| Strings.SecondPart | src/lib/api.ts:154-156 | no second part exactly when the separator never occurs; otherwise the second part is the text from the end of the first occurrence up to the next occurrence or the end of the string |
| Strings.SecondPartHasNoSeparator | src/lib/api.ts:154-156 | the second part never contains the separator |
| Strings.DecimalString | src/app/admin/products/page.tsx:68 | `String(n)` is non-empty, all digits (after a "-" for a negative number) and reads back as the number |
| Strings.DigitsRoundTrip | src/app/admin/products/page.tsx:68 | the digits written for a natural number read back as that number |
| Lists.Select | src/app/menu/page.tsx:35 | every row of the filtered list has the key, and every row with the key is in it |
| Lists.SelectCount | src/app/menu/page.tsx:35 | the filtered list holds each row with the key as many times as the list does, and no other row |
| Lists.Reject | src/app/admin/orders/page.tsx:53 | every row of the filtered list has another id, and every row with another id is in it |
| Lists.RejectCount | src/app/admin/orders/page.tsx:53 | the filtered list holds each row with another id as many times as the list does, and no row with the id |
| Lists.RejectIsSubsequence | src/app/admin/orders/page.tsx:53 | the filter keeps the rows' order |
| Lists.RejectAbsent | src/app/admin/categories/page.tsx:56 | deleting an id that no row has leaves the list unchanged |
| Lists.RejectIdempotent | src/app/admin/products/page.tsx:84 | filtering out the same id twice is filtering it once |
| Lists.Replace | src/app/admin/orders/page.tsx:42 | the mapped list has the same length, the rows with the id replaced and the others kept |
| Lists.ReplaceKeepsOthers | src/app/admin/orders/page.tsx:41-43 | after a status change the orders with other ids are exactly the ones before |
| Lists.ReplaceAbsent | src/app/admin/orders/page.tsx:42 | a status change for an id that no row has leaves the list unchanged |
| Cart.CartStore.ClearCart | src/app/checkout/gateway/page.tsx:51 | after clearing, the cart has no lines and its total is 0 |

Three predicates have no contract of their own and so no row: `Strings.IsDigitString` (the `/^\d{n}$/.test` calls at src/app/checkout/address/page.tsx:45-49), `AdminProducts.Incomplete` (the required-fields test at src/app/admin/products/page.tsx:92) and `AdminProducts.ReplacesImage` (the old-image test at src/app/admin/products/page.tsx:101-102). Their behaviour is stated by the members that use them: `ValidateAddress`, `AcceptedAddressIsClean` and `EightDigitPhoneRefused` for the first, `AdminProductsPage.BeginSubmit` for the second, and `SubmitOrder` and `SubmitSucceeds` for the third.

## Left out

- The hosted backend (database queries, storage uploads and deletions) is not modelled. Each call's result is a parameter of the handler that awaits it.
- Authentication and the admin guard are outside this model.
- The cart store's own operations (add, change quantity, remove, and the total's computation) are outside this model. The checkout sees the cart as lines plus the total it reports, and clears it.
- The two-second simulated delay at the gateway is not modelled as time. `BeginPay` returns only whether it would wait.
- The `Date.now()` / `Math.random()` stem of a stored image's file name is a parameter (`stem`).
- The pages' loading spinners, markup, icons and styles are not modelled. The confirmation dialog's answer is a `bool` parameter.
- React's scheduling is not modelled: effect timing and the order in which state updates become visible within one handler. Each handler's final state is modelled, and the guard redirects are functions of the state they read.
- `useCheckout` throwing outside a provider is not modelled.
- `setCustomerInfo` is modelled, but none of the modelled pages calls it. The order page keeps its own name and email.
- Date and time formatting of `created_at` in the admin orders list is not modelled.
- Prices, quantities and totals are unbounded integers. JavaScript number precision and non-integer prices are not modelled.
- The HTML `required` attribute is not modelled: on the category form's name input (src/app/admin/categories/page.tsx:121) and on the product form's name and price inputs (src/app/admin/products/page.tsx:166, 176). In a browser an empty input there never reaches the handler; the handlers' own checks are modelled for every input.
- The HTML `maxLength` attributes on the address form's phone (10, src/app/checkout/address/page.tsx:109) and pincode (6, src/app/checkout/address/page.tsx:175) inputs are not modelled: the form accepts text of any length, and the submit handler's digit checks refuse what is too long.
- `new URL(imageUrl)` parsing is not modelled: `StoragePath` takes the URL's pathname.
- `supabase.storage.remove` ignoring its error is not modelled: the deletion's outcome is still a parameter that can throw, so the model is at least as strict.
- AdminProducts.Payload: does not model `parseFloat(form.price)`; the payload keeps the price text. `FormOf` states that a non-negative price's text reads back as that price.
- AdminOrders.OptionLabel: upper-cases only the ASCII letters a to z; `toUpperCase` on other first characters is not modelled. The statuses offered are all ASCII.
- Menu.Loaded: states only the first load, from empty lists; a later failing load, which would keep the previous lists, cannot happen on that page.
- SuccessStage.DeliveryLine: its own contract states only the length. The order and content of the parts are stated by `DeliveryLineParts` and `CityPart`.
- AdminOrders.StatusColour: a status that names an inherited object property ("constructor", "toString" and the like) is treated as unknown and gets the grey fallback. In the page the object-literal lookup returns the inherited member instead.
- GatewayStage.GatewayPage.CompletePay: states that both the push to the success stage and the guard's redirect to /order are issued; which navigation the router ends on is not modelled.
- AdminProducts.SubmitRun: its own contract states only that a call is made. The order of the calls, and that nothing follows a call that threw, are stated by `SubmitOrder`; success by `SubmitSucceeds` and `SuccessfulSubmitOrder`.
- Lists.Select, Lists.Reject: their own contracts state membership both ways; how many times each row is kept is stated by `SelectCount` and `RejectCount`.
- The shop's presentation-only pages are not part of this model: home, about, contact, admin login, and the layout, navigation bar, footer, product card and cart drawer components.
