# CaseCobra phone-case configurator and payment webhook, in Dafny

This project models the logic of the CaseCobra storefront that can be stated
exactly: the closed catalog of case options and their prices, the design
configurator's state and arithmetic, and the payment-notification handler that
marks an order paid and mails a confirmation.

- `products.dfy` (module `Products`): `PRODUCT_PRICE` and `BASE_PRICE`, in integer cents.
- `options_validator.dfy` (module `OptionsValidator`): the `COLORS`, `MODELS`,
  `MATERIALS` and `FINISHES` catalogs as constant sequences. It also has a
  lookup of an entry by its value token. The source's `label` field is called
  `caption` because `label` is a Dafny keyword.
- `js_runtime.dfy` (module `JsRuntime`): the JavaScript built-ins the configurator
  relies on. These are a Number that may be NaN, `String.prototype.slice` with
  negative indices, and `parseInt`.
- `configurator.dfy` (module `Configurator`): the component state as a class
  `DesignConfigurator`, with one method per UI event. It also holds the pure
  parts: the total price, the case-local offset, the `"50px"` parse, the
  `base64ToBlob` byte copy (a method with a loop over an array) and the
  `saveConfig` payload.
- `webhook.dfy` (module `Webhook`): the Stripe event as datatypes and the
  decision procedure as a pure function `Handle`. The handler is a class
  `Backend` whose `Post` method runs the steps one by one and is proved equal
  to `Handle`. The database is a map from order id to order. The mail service
  is an outbox of accepted messages. Signature checking (`constructEvent`) and
  sending are oracle parameters.
- `wrappers.dfy` (module `Wrappers`): `Option`, standing for `null`/`undefined`.

Geometry is over `real`: this idealises JavaScript's floating-point numbers.
Money is in integer cents only.

Two readings of the handler rest on code that is not part of this model:
- The database schema is not part of this model. Every address field the
  handler asserts non-null (`!`) is treated as a required column. A missing
  field, or an order id the table does not hold, makes `db.order.update`
  throw, so the request ends in the 500 branch with nothing changed.
- The mail SDK is not part of this model. Its `send` can accept the message,
  report an error in its return value (which the handler ignores, answering
  200), or throw (500 after the order was already updated).

## Model

| member | source | states |
|---|---|---|
| `Products.PriceConstants` | src/app/config/products.ts:1-13 | The base price is 1400 cents. Silicone and smooth add 0, polycarbonate adds 500, textured adds 300. |
| `Products.IncrementsNonNegative` | src/app/config/products.ts:1-10 | Every increment is a non-negative number of cents. The default variant of each category is free. |
| `OptionsValidator.CatalogSizes` | src/app/validators/options-validator.ts:9-88 | There are exactly 3 colours, 5 models, 2 materials and 2 finishes. |
| `OptionsValidator.ValuesDistinct` | src/app/validators/options-validator.ts:9-88 | Value tokens are pairwise distinct in each catalog. This includes the model labelled "iPhone 13", whose token is "iphone14". |
| `OptionsValidator.LabelsDistinct` | src/app/validators/options-validator.ts:9-88 | Labels are pairwise distinct in each catalog, so keying the colour and model items by label is sound. |
| `OptionsValidator.CatalogNames` | src/app/validators/options-validator.ts:28-88 | The material catalog is named "material" and the finish catalog "finish", the option fields they are stored under. The models catalog is named "models". |
| `OptionsValidator.PricesFromProductPrice` | src/app/validators/options-validator.ts:54-88 | Each material and finish price is the matching `PRODUCT_PRICE` entry, and none is negative. |
| `OptionsValidator.DescriptionsOnSurcharges` | src/app/validators/options-validator.ts:54-88 | A material or finish has a description exactly when it costs extra. The first entry of each is free. |
| `OptionsValidator.FindByKey` | src/app/configure/design/DesignConfigurator.tsx:339-345 | Lookup helper that resolves a saved value token against a catalog. It returns an entry with that token, or nothing exactly when no entry has it. |
| `OptionsValidator.FindByOwnKey` | src/app/validators/options-validator.ts:9-88 | In a catalog with distinct tokens, looking up an entry's own token finds that entry. |
| `JsRuntime.RelativeIndex` | src/app/configure/design/DesignConfigurator.tsx:181-182 | A `slice` index within range is taken as is, a negative one counts from the end, and the result stays within the string. |
| `JsRuntime.Slice` | src/app/configure/design/DesignConfigurator.tsx:181-182 | `s.slice(start, end)` never grows the string. In-range indices take `s[start..end]`, a negative end counts from the end, and crossing indices give the empty string. |
| `JsRuntime.SliceDropsSuffix` | src/app/configure/design/DesignConfigurator.tsx:181-182 | `slice(0, -n)` drops exactly the last `n` characters. |
| `JsRuntime.DigitPrefix` | src/app/configure/design/DesignConfigurator.tsx:181-182 | Finds the longest run of decimal digits at the head of a string. |
| `JsRuntime.DigitPrefixBeforeNonDigit` | src/app/configure/design/DesignConfigurator.tsx:181-182 | The run of digits ends exactly at the first non-digit. |
| `JsRuntime.DecimalString` | src/app/configure/design/DesignConfigurator.tsx:181-182 | The decimal spelling of a whole number is a non-empty string of digits. |
| `JsRuntime.DecimalRoundTrip` | src/app/configure/design/DesignConfigurator.tsx:181-182 | Reading back the decimal spelling of `n` gives `n`. |
| `JsRuntime.ParseInt` | src/app/configure/design/DesignConfigurator.tsx:181-182 | `parseInt` yields NaN or a whole number. |
| `JsRuntime.ParseIntDigits` | src/app/configure/design/DesignConfigurator.tsx:181-182 | A string of digits parses to its decimal value. |
| `JsRuntime.ParseIntStopsAtNonDigit` | src/app/configure/design/DesignConfigurator.tsx:181-182 | Parsing ignores everything from the first non-digit on. |
| `JsRuntime.ParseIntNaN` | src/app/configure/design/DesignConfigurator.tsx:181-182 | A string that does not start with a digit or a sign parses to NaN. |
| `Configurator.TotalPrice` | src/app/configure/design/DesignConfigurator.tsx:335 | For any catalog selection, `BASE_PRICE + finish.price + material.price` lies in [1400, 2200] and is one of 1400, 1700, 1900, 2200. It is the base price exactly when both choices are free. |
| `Configurator.TotalsReachable` | src/app/configure/design/DesignConfigurator.tsx:335 | Each of 1400, 1700, 1900 and 2200 is the total of some catalog selection. |
| `Configurator.TotalExamples` | src/app/configure/design/DesignConfigurator.tsx:58-63 | The initial selection (first entry of each catalog) is valid and costs 1400. Polycarbonate with textured costs 2200. |
| `Configurator.PxValue` | src/app/configure/design/DesignConfigurator.tsx:181-182 | `parseInt(style.slice(0, -2))` is NaN or a whole number. It is NaN for a string of two characters or fewer. |
| `Configurator.PxOfDigits` | src/app/configure/design/DesignConfigurator.tsx:181-182 | Digits followed by "px" read back as the value of the digits. |
| `Configurator.PxRoundTrip` | src/app/configure/design/DesignConfigurator.tsx:181-182 | The CSS length written for a whole number of pixels reads back as that number. |
| `Configurator.PxTruncatesFraction` | src/app/configure/design/DesignConfigurator.tsx:181-182 | A fractional length such as "12.5px" reads back as its whole part. |
| `Configurator.CaseLocal` | src/app/configure/design/DesignConfigurator.tsx:87-91 | The case-local corner `rendered - (caseLeft - containerLeft)` names the same screen point as the rendered corner in container coordinates. |
| `Configurator.CaseLocalShiftInvariant` | src/app/configure/design/DesignConfigurator.tsx:87-91 | Shifting case and container by the same amount leaves the case-local corner unchanged. |
| `Configurator.CaseLocalCoincide` | src/app/configure/design/DesignConfigurator.tsx:87-91 | When case and container share their corner, the case-local corner is the rendered one. |
| `Configurator.ToUint8` | src/app/configure/design/DesignConfigurator.tsx:132 | Storing an integer in a `Uint8Array` keeps a value that is already a byte. |
| `Configurator.Base64ToBlob` | src/app/configure/design/DesignConfigurator.tsx:125-134 | The blob has as many bytes as the decoded string has characters. Byte `i` is the code of character `i`, taken modulo 256. For a binary string the bytes spell the string back. |
| `Configurator.SavePayload` | src/app/configure/design/DesignConfigurator.tsx:339-345 | The payload carries `configId` and the value tokens of the selected colour, finish, material and model. |
| `Configurator.SelectionOf` | src/app/configure/design/DesignConfigurator.tsx:339-345 | A payload denotes a selection exactly when each of its four tokens names an entry of its catalog. That selection is valid and yields the same payload. |
| `Configurator.PayloadDeterminesSelection` | src/app/configure/design/DesignConfigurator.tsx:339-345 | The saved tokens determine the selection they came from, so the payload loses nothing. |
| `Configurator.DesignConfigurator.Total` | src/app/configure/design/DesignConfigurator.tsx:335 | The price shown for the current state is a reachable total. |
| `Configurator.DesignConfigurator.constructor` | src/app/configure/design/DesignConfigurator.tsx:53-73 | Initial options are the first entries of the catalogs, with total 1400. The size is a quarter of the image's natural size and the corner is at (150, 205). |
| `Configurator.DesignConfigurator.SelectColor` | src/app/configure/design/DesignConfigurator.tsx:209-216 | A colour change replaces only the colour. The other options, the position and the size are unchanged. |
| `Configurator.DesignConfigurator.SelectModel` | src/app/configure/design/DesignConfigurator.tsx:258-260 | A model change replaces only the model. Everything else is unchanged. |
| `Configurator.DesignConfigurator.SelectPriced` | src/app/configure/design/DesignConfigurator.tsx:275-284 | The shared handler writes under the catalog's name: the material for the material catalog, the finish for the finish catalog. Nothing else changes. |
| `Configurator.DesignConfigurator.DragStop` | src/app/configure/design/DesignConfigurator.tsx:187-190 | Drag-stop sets the position only. |
| `Configurator.DesignConfigurator.ResizeStop` | src/app/configure/design/DesignConfigurator.tsx:179-186 | Resize-stop sets the size from the element's CSS lengths and sets the position. The options are unchanged. |
| `Configurator.ToUnsignedLong` | src/app/configure/design/DesignConfigurator.tsx:95-96 | The WebIDL conversion of a number to `unsigned long` gives a whole number in [0, 2^32). A non-negative number below 2^32 loses its fraction. |
| `Configurator.CanvasDimension` | src/app/configure/design/DesignConfigurator.tsx:95-96 | Assigning a size to `canvas.width` or `canvas.height` gives a whole number in [0, 2^31). A non-negative size below 2^31 loses its fraction. A size that converts above 2^31 - 1 falls back to the attribute's default. |
| `Configurator.CanvasDropsFraction` | src/app/configure/design/DesignConfigurator.tsx:95-96 | A case box 490.45 pixels high gives a canvas 490 pixels high. |
| `Configurator.CanvasFallsBackToDefault` | src/app/configure/design/DesignConfigurator.tsx:95-96 | A size of 3e9 or -1.5 gives the default canvas size: 300 wide, 150 high. |
| `Configurator.DesignConfigurator.Snapshot` | src/app/configure/design/DesignConfigurator.tsx:84-105 | The snapshot is abandoned exactly when a box cannot be measured. Otherwise the canvas has the case's size as `canvas.width` and `canvas.height` store it (whole pixels, or the 300 by 150 default for a size out of range), and the image is drawn at its case-local corner with its rendered size. |
| `Configurator.DesignConfigurator.Payload` | src/app/configure/design/DesignConfigurator.tsx:339-345 | The "Continue" payload names exactly the current selection. |
| `Webhook.Truthy` | src/app/api/webhook/route.ts:18 | A header or field passes the handler's `!x` test exactly when it is neither null nor the empty string. |
| `Webhook.MetadataField` | src/app/api/webhook/route.ts:31-34 | Reading `userId` or `orderId` gives null when the session has no metadata or the key is absent, and the stored value otherwise. |
| `Webhook.ToAddress` | src/app/api/webhook/route.ts:50-69 | An address record exists exactly when the name and all five address fields are present. It uses the customer name, `street = line1` and `postalCode = postal_code`. |
| `Webhook.ValidateCheckout` | src/app/api/webhook/route.ts:24-69 | A completed checkout is accepted exactly when it has a non-empty customer e-mail, non-empty `userId` and `orderId` in its metadata, shipping details, and complete shipping and billing addresses. The billing address comes from `customer_details.address` and the shipping address from `shipping_details.address`. |
| `Webhook.PaidOrder` | src/app/api/webhook/route.ts:44-71 | The updated order is paid and has the two new addresses. Its user, amount and creation date are unchanged. |
| `Webhook.ConfirmationEmail` | src/app/api/webhook/route.ts:74-91 | The mail goes to the customer e-mail and carries the order id, the order's creation date and the shipping address. |
| `Webhook.Handle` | src/app/api/webhook/route.ts:11-100 | The decision procedure of one `POST`. The answer is 400 exactly when the signature is missing. The order ids never change, and orders change only for a verified completed checkout. The outbox only grows, by at most one mail, and only on a 200 answer. |
| `Webhook.Backend.constructor` | src/app/api/webhook/route.ts:1-9 | The handler starts from the stored orders and a mail service that has accepted nothing. |
| `Webhook.Backend.Post` | src/app/api/webhook/route.ts:11-100 | The step-by-step handler's response, orders and outbox are those of `Handle` on the old state. |
| `Webhook.MissingSignatureRejected` | src/app/api/webhook/route.ts:16-18 | A missing or empty signature header gives 400. No order changes, no mail is sent, and the event is never built. |
| `Webhook.BadSignatureFails` | src/app/api/webhook/route.ts:95-98 | When event construction (line 21) fails, the catch branch answers 500 and nothing changes. |
| `Webhook.OtherEventsIgnored` | src/app/api/webhook/route.ts:23-94 | A verified event of another type is acknowledged with 200. Orders and outbox are unchanged. |
| `Webhook.IncompleteCheckoutFails` | src/app/api/webhook/route.ts:24-38 | A completed checkout with a missing e-mail, missing metadata, or a missing `userId` or `orderId` gives 500. No order changes and no mail is sent. |
| `Webhook.UnknownOrderFails` | src/app/api/webhook/route.ts:44-47 | An `orderId` the table does not hold gives 500 and nothing changes. |
| `Webhook.CheckoutMarksPaid` | src/app/api/webhook/route.ts:40-94 | On a valid checkout, exactly the order `orderId` becomes paid with both addresses and the other orders are unchanged. Exactly one mail is appended, to the customer, with the order id and the shipping address. The answer is 200. |
| `Webhook.SendFailureKeepsPayment` | src/app/api/webhook/route.ts:44-98 | If sending throws after the update, the order stays paid, nothing is mailed and the answer is 500. |
| `Webhook.HandleFrame` | src/app/api/webhook/route.ts:11-100 | For every request: the order ids stay the same and at most one order changes, ending paid. No paid order becomes unpaid. The outbox only grows, by at most one mail. |
| `Webhook.StatusCases` | src/app/api/webhook/route.ts:11-100 | The status is 400 exactly when the signature is missing. It is 200 exactly when the event verified and either has another type or was processed without the send throwing. |
| `Webhook.RedeliverySendsSecondEmail` | src/app/api/webhook/route.ts:44-91 | The handler does not remember events: delivering the same completed checkout twice leaves the order as the first delivery left it and mails the confirmation twice. |

## Left out

- Canvas rasterisation (`createElement('canvas')`, `Image` loading, `drawImage`, `toDataURL`) is left out because these are browser APIs. `Snapshot` models only the canvas size and the draw rectangle.
- When the case or container box cannot be measured, `saveConfiguration` catches the error itself and returns normally, so the joint save still succeeds without an uploaded crop. `Snapshot` models the abandoned snapshot, but not how the flow continues.
- `atob` decoding is left out: `Base64ToBlob` takes the decoded string as its input. The `File` wrapping and the upload call are left out too.
- `getBoundingClientRect` values, `width / 4` and the other JavaScript numbers are floating point. They are modelled as exact reals.
- `formatPrice(x / 100)` and all display formatting are left out. Prices stay in integer cents.
- The joint save (`Promise.all` of the upload and `saveConfigAction`) is left out as concurrency and external calls. So are the mutation callbacks, toasts, router navigation and the error toast in `saveConfiguration`. `saveConfigAction` is not part of this model; only the payload it receives is.
- `ParseInt`: does not model leading white space, the `0x` hexadecimal prefix or the loss of precision of very long digit strings. The CSS lengths react-rnd writes carry none of these.
- `Base64ToBlob`: characters are Unicode scalar values rather than UTF-16 code units. The two agree on the binary strings `atob` returns.
- Stripe signature cryptography and the webhook secret are left out: `constructEvent` is an oracle that yields an event or fails. Reading the raw body and the header is left out too; they are parameters.
- Prisma and Resend are modelled only as an order map and an outbox. Address records are fields of the order rather than rows of their own tables, so the addresses orphaned by a repeated delivery are not represented.
- The order date in the mail is the order's `createdAt`; `toLocaleDateString` (locale formatting) is left out. So are the e-mail template's rendering and the logging in the catch branch.
- The response body of the 200 answer carries the event; its JSON encoding is left out.
- Tailwind class strings and all JSX rendering are left out; the colours' `tw` field is kept as data only.
