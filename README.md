# Catalogue admin app: a Dafny model

This project models the decision logic of a small product-catalogue web app
(an Express server over MongoDB, and two browser scripts):

- **The server** (`server.js`): one-shot admin registration, login that answers
  unknown usernames and wrong passwords alike and issues an 8-hour JWT, the
  `authMiddleware` access gate (401 without a token, 403 for a token that does
  not verify), product create/update/delete behind that gate with 404 for a
  missing id, and the contact-settings singleton that is upserted on save and
  read back as an empty default before the first save. The server is the class
  `Catalogue.Server`, whose fields are the admin collection (a sequence, in
  store order), the product collection (a map by id) and the optional settings
  document; each handler is a method. Registration and login are also pure
  functions in module `Auth`, and the gate is a pure function in module
  `AccessGate`.
- **The admin page's settings form** (`public/js/admin.js`): the WhatsApp
  number is saved trimmed with the country code `62` in front unless it is
  already there, and is shown with one leading `62` stripped; the Telegram
  name is saved trimmed (module `AdminSettings`).
- **The product page** (`public/js/product-page.js`): the stock label, the
  choice of contact buttons, the order message and the WhatsApp/Telegram links
  built from it, and the quantity stepper that keeps the quantity between 1 and
  the stock (module `ProductPage`; the class `ProductPage.Page` holds the
  quantity and the two links).

Library primitives are parameters, not axioms. bcrypt's key derivation is a
function value `Kdf`. The stored hash keeps the cost and salt next to the
digest, and `Compare` re-derives the digest, so a hash always compares equal to
its own password. JWT signing and verification are function values `Signer`
and `Verifier`. The lemmas that follow a token from login to the gate assume
`Jwt.Faithful`: verification returns the signed claims before `exp` and
nothing from `exp` on. They also assume `Jwt.Compact`: a token is non-empty and
has no space in it. `toLocaleString('id-ID')` and `encodeURIComponent` are
function values of the product page. Randomness and the clock are handler
parameters: bcrypt's salt, the `_id` Mongo assigns, and the current time in
seconds. Strings are sequences of Unicode characters. `Text` models the
JavaScript built-ins the code uses: `trim` over ECMAScript white space and line
terminators, `startsWith`, `split(' ')` together with its inverse `join`, and
decimal rendering.

## Model

| member | source | states |
|---|---|---|
| `Bcrypt.Hash` | server.js:37 | the stored hash compares equal to the password it was made from, and records the cost and the salt |
| `Bcrypt.CompareIsRehash` | server.js:58 | `bcrypt.compare` accepts a password exactly when hashing it again under the stored cost and salt gives the stored value |
| `Bcrypt.SaltedHashesDiffer` | server.js:37 | the same password hashed under two different salts gives two different stored values, and both still compare equal to it |
| `Jwt.IssueClaims` | server.js:65 | the token's subject is the admin id, and it expires 8 hours (28800 s) after it is issued |
| `AccessGate.BearerToken` | server.js:77-78 | the token is exactly the second field of the header split at spaces; it is present exactly when the header has a second field and that field is non-empty; a token never contains a space |
| `AccessGate.Gate` | server.js:76-86 | 401 exactly when no token is present; 403 exactly when a token is present but fails verification; otherwise the request is allowed with the verified payload as `req.user` |
| `AccessGate.Rejection` | server.js:79-82 | a request the gate stops is answered 401 when there is no token and 403 when the token does not verify |
| `AccessGate.SecondWordIsToken` | server.js:78 | any header made of two or more space-free words, with a non-empty second word, hands over that second word as the token, whatever the other words are |
| `AccessGate.TwoWordHeader` | server.js:78 | for any first word, a header `<word> <token>` hands over the token |
| `AccessGate.SchemeNotChecked` | server.js:77-78 | the scheme word is never checked: any first word gets the same decision as `Bearer` |
| `AccessGate.OneWordHeaderUnauthorized` | server.js:78-79 | a header with no space in it, such as just `Bearer`, is answered 401 |
| `AccessGate.IssuedTokenLifetime` | server.js:65-84 | a token from `jwt.sign` opens the gate, with its claims as `req.user`, until 8 hours after issue; from then on it gets 403 |
| `Auth.FindAdmin` | server.js:51 | `findOne({ username })` returns an admin with that username from the collection, the first one in store order; it returns nothing exactly when no admin has that username |
| `Auth.Register` | server.js:33-40 | once any admin exists: 400, and the collection is unchanged whatever the username; on an empty collection: 201 and exactly one admin, whose stored password is a bcrypt hash (cost 10, the drawn salt) that compares equal to the password |
| `Auth.Login` | server.js:51-66 | any failure is the same 401 "Username atau password salah."; the answer is 200 exactly when an admin with that username exists and bcrypt accepts the password; the token then signs that admin's id with an 8-hour expiry |
| `Auth.ClosedStaysClosed` | server.js:33-36 | once an admin exists, no sequence of registration requests changes the admin collection |
| `Auth.FirstRegistrationWins` | server.js:33-40 | starting from an empty store, any sequence of registrations leaves at most one admin: the one the first request created |
| `Auth.RegisterThenLogin` | server.js:37-66 | logging in with the credentials just registered returns 200 and a token for the new admin |
| `Auth.RegisterThenWrongPassword` | server.js:58-62 | after registration, a password that bcrypt rejects gets the generic 401 |
| `Auth.LoginTokenOpensGate` | server.js:65-84 | the token from a successful login passes the gate as that admin for 8 hours, then gets 403 |
| `Catalogue.NewProduct` | server.js:91-92 | a new product takes the name, image, price, struck-through price, stock and description of the body, is stored under the id Mongo assigns, and is stamped with its creation time |
| `Catalogue.ApplyFields` | server.js:101 | each field the body names is set to the body's value and every other field keeps its old value; the id and creation time never change, and an empty body changes nothing |
| `Catalogue.ApplyFieldsIdempotent` | server.js:101 | applying the same update body twice is the same as applying it once |
| `Catalogue.Server.Register` | server.js:30-44 | runs `Auth.Register` on the admin collection: 400 and nothing changes once an admin exists, otherwise the single hashed admin; the at-most-one-admin invariant is kept |
| `Catalogue.Server.Login` | server.js:46-73 | changes nothing; its answer is `Auth.Login` on the current admins: the same 401 for an unknown username and for a wrong password, and 200 exactly for valid credentials |
| `Catalogue.Server.CreateProduct` | server.js:89-97 | stopped by the gate: 401/403 and no product changes; allowed: the new product is added under its id with 201; an id already taken gives 500 and no change |
| `Catalogue.Server.UpdateProduct` | server.js:99-107 | stopped by the gate: no change; a missing id: 404 and no change; otherwise only that product is updated, and the response carries the updated document |
| `Catalogue.Server.DeleteProduct` | server.js:109-117 | stopped by the gate: no change; a missing id: 404 and no change; otherwise exactly that product is removed and every other product is left as it was |
| `Catalogue.Server.SaveSettings` | server.js:119-127 | stopped by the gate: the settings are unchanged; allowed: the singleton becomes exactly the two given fields, created if absent |
| `Catalogue.Server.GetSettings` | server.js:149-156 | 200 with the stored settings, or with the default `''`/`''` record before any save; nothing is stored |
| `Catalogue.Server.GetProduct` | server.js:139-147 | 200 with the stored product exactly when the id is present, 404 otherwise |
| `Catalogue.Server.ListProducts` | server.js:130-137 | 200 with exactly the stored products |
| `AdminSettings.NormaliseWhatsApp` | public/js/admin.js:29-32 | the saved number is trimmed |
| `AdminSettings.DisplayWhatsApp` | public/js/admin.js:20 | a missing number shows as ""; a stored number starting with 62 shows with exactly that one 62 removed; any other number shows unchanged |
| `AdminSettings.SaveTelegram` | public/js/admin.js:35 | the saved Telegram name is the typed name with the white space at both ends removed and nothing else changed; it is empty exactly when the input is blank |
| `AdminSettings.DisplayTelegram` | public/js/admin.js:21 | the stored Telegram name is shown as is, and a missing one as "" |
| `AdminSettings.SubmittedSettings` | public/js/admin.js:29-36 | the posted body holds the normalised number and the trimmed Telegram name |
| `AdminSettings.NormalisePrefixes` | public/js/admin.js:29-32 | any input whose trimmed form is non-empty and does not start with 62 is saved as 62 followed by the trimmed form |
| `AdminSettings.NormaliseKeepsPrefixed` | public/js/admin.js:29-30 | a number that already starts with 62 is saved as typed, after trimming; a blank input is saved as "" |
| `AdminSettings.SavedNumberHasCountryCode` | public/js/admin.js:30-31 | every non-empty saved number starts with 62 |
| `AdminSettings.NormaliseIdempotent` | public/js/admin.js:29-32 | normalising an already saved number leaves it unchanged |
| `AdminSettings.DisplayAfterSave` | public/js/admin.js:20-32 | when the typed number has no 62 of its own, the form shows what was typed (trimmed) after a save and a reload |
| `AdminSettings.DisplayAfterSavePrefixed` | public/js/admin.js:20-32 | a number typed with its own leading 62 shows without that 62 after a save and a reload |
| `AdminSettings.SaveAfterDisplay` | public/js/admin.js:20-32 | re-saving the form as loaded gives back the stored number, when the number carries 62 once and its rest is trimmed |
| `AdminSettings.SaveAfterDisplayLosesCode` | public/js/admin.js:20-32 | when the stored number's rest after 62 starts with 62 again, showing it and saving the form again stores only the rest: one 62 is lost |
| `AdminSettings.SaveAfterDisplayExample` | public/js/admin.js:20-32 | "62627" is shown as "627" and saved again as "627" |
| `AdminSettings.SaveHeadersAsWritten` | public/js/admin.js:39-43 | as written, the settings POST carries the JSON content type and no `Authorization` header |
| `AdminSettings.AuthHeaders` | public/js/admin.js:197-200 | `authHeaders` carries the JSON content type and the stored token as a `Bearer` credential |
| `AdminSettings.SaveAsWrittenUnauthorized` | public/js/admin.js:39-43 | as written, the settings POST carries no Authorization header, so the gate answers every save from the admin page with 401 |
| `AdminSettings.SaveWithTokenAccepted` | public/js/admin.js:197-200 | with `authHeaders` sent, a save made within 8 hours of login passes the gate as the admin who logged in |
| `ProductPage.StockLabel` | public/js/product-page.js:91 | the label is "Habis" exactly when the stock is not positive; otherwise it is the stock's decimal digits, without a leading zero, followed by " unit", and the digits read back as the stock |
| `ProductPage.OrderMessage` | public/js/product-page.js:37-50 | the trimmed message always opens with the greeting and the product name in bold; when the page URL does not end in white space, the trim removes exactly the template's opening newline and closing indentation |
| `ProductPage.ContactButtons` | public/js/product-page.js:72-78 | a channel gets a button exactly when its setting is non-empty, and WhatsApp comes before Telegram |
| `ProductPage.ContactLink` | public/js/product-page.js:54-64 | a link is built exactly when the channel's setting is non-empty: `https://api.whatsapp.com/send?phone=<number>&text=<encoded message>` or `https://t.me/<username>?text=<encoded message>` |
| `ProductPage.LinksMatchButtons` | public/js/product-page.js:54-78 | a channel gets a link exactly when its button is rendered |
| `ProductPage.SavedNumberLinkHasCountryCode` | public/js/product-page.js:55-58 | when the settings come from the admin form and the number is not blank, the WhatsApp link's phone starts with 62 |
| `ProductPage.ClickMovesTotal` | public/js/product-page.js:32-33 | the order total is price times quantity, so a click that changes the quantity moves the total by exactly one unit price, and a click that does not leaves it alone |
| `ProductPage.Step` | public/js/product-page.js:119-132 | a click moves the quantity by at most one; minus lowers it exactly when it is above 1, plus raises it exactly when it is below the stock |
| `ProductPage.ClicksStayInRange` | public/js/product-page.js:119-132 | no sequence of minus/plus clicks takes the quantity below 1, or above the stock when the stock is at least 1 |
| `ProductPage.LowStockPinsQuantity` | public/js/product-page.js:126-132 | when the stock is at most 1, the quantity stays 1 whatever is clicked |
| `ProductPage.Page.constructor` | public/js/product-page.js:95-117 | the quantity starts at 1, the page's order message for each quantity is `OrderMessage` over its product, URL and price format, and the links are built for quantity 1 |
| `ProductPage.Page.LinkFor` | public/js/product-page.js:28-64 | a channel's href exists exactly when its button is rendered, and it is the channel's URL followed by the encoded order message for the current quantity |
| `ProductPage.Page.ClickMinus` | public/js/product-page.js:119-125 | minus subtracts exactly 1 when the quantity is above 1 and rebuilds the links; otherwise the quantity and links are unchanged; the quantity stays in range |
| `ProductPage.Page.ClickPlus` | public/js/product-page.js:126-132 | plus adds exactly 1 when the quantity is below the stock and rebuilds the links; otherwise the quantity and links are unchanged; the quantity stays in range |

## Findings

| source | as written | input that shows it | evidently intended | confidence | as-written member | corrected member |
|---|---|---|---|---|---|---|
| public/js/admin.js:39-43 | the settings form posts with only a `Content-Type` header. The page builds `authHeaders` with the stored token (public/js/admin.js:197-200) and never uses it. Meanwhile server.js:119 puts the settings POST behind `authMiddleware` | a logged-in admin submits the settings form: the request has no Authorization header, so the answer is 401 and nothing is saved | send `authHeaders` so that the stored token reaches the gate | high (read from the code, not executed) | `AdminSettings.SaveAsWrittenUnauthorized` | `AdminSettings.SaveWithTokenAccepted` |

The same omission affects the admin page's product create, edit and delete
requests. Those requests are outside this model.

## Left out

- Mongo/mongoose persistence is replaced by in-memory fields. Connection
  failures and other store errors, which the handlers answer with 500, are not
  modelled.
- The product schema file is not part of this model. So mongoose schema
  validation, defaults and type casts (for example the admin form sends price
  and stock as strings) are not modelled. A product body is a typed record.
  `Catalogue.ApplyFields` sets each field the body names.
- A malformed id in PUT, DELETE or GET by id makes mongoose throw a cast error,
  which the handlers answer with 500. The model treats every id as
  well-formed.
- Request bodies whose `username`, `password`, `whatsappNumber` or
  `telegramUsername` field is missing are not modelled. Every body field is a
  present string. With the field missing, bcrypt would throw or mongoose would
  drop the key.
- `ListProducts` returns the set of stored products. The newest-first order
  (`sort({ createdAt: -1 })`) is not modelled.
- The registration check-then-insert is not atomic in the source. Concurrent
  requests are not modelled: the model runs requests one after the other.
- bcrypt's key derivation and constant-time comparison, and JWT signing and
  verification, are uninterpreted function values.
- Express setup, CORS, static files and the page routes are not modelled.
  Neither are `dotenv`, the database connection or the start-up log.
- The login page, the home-page script and the admin page's product table,
  modal and product requests are DOM and fetch glue, and are not modelled.
- The locale formatting of prices, `encodeURIComponent` and the exact HTML of
  the product page are not modelled. The struck-through original price and the
  page title are not modelled either. Only the order message and the link
  strings are written out.
- `ProductPage.StockLabel`, `ProductPage.Step`, `ProductPage.ClicksStayInRange`
  and `ProductPage.OrderTotal` take the price and the stock to be integers.
  In the source they are JavaScript numbers, and the admin form posts whatever
  was typed, so a fractional stock such as 2.5 can be stored. With such a stock
  the label would read "2.5 unit", plus would step the quantity 1, 2, 3 (above
  the stock, since 2 < 2.5), and the total would be a floating-point product.
  None of this is modelled.
- `routes/products.js` is a draft router that server.js never mounts. It is
  not part of this model.
- `Catalogue.Server.Register`, `Catalogue.Server.Login`, `Auth.Login`: the
  model keeps at most one admin as an invariant, and login is stated under it.
  With several admins, `findOne` takes the first admin with the username, as
  `Auth.FindAdmin` states.
