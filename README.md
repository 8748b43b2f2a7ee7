# A verified model of the storefront's client-side rules

This project models the browser side of a small Next.js storefront. The storefront keeps a cart and a login session in two zustand stores. It keeps a bearer token in a module variable that it mirrors into `localStorage` and onto four HTTP clients. A hook reconciles that token with the persisted login flag at start-up. The pages build on these: cart, checkout, catalogue, registration, profile and login. They add the pricing rule, the checkout's checks and order payload, the catalogue filter and the form schemas. A few string helpers complete the core.

Modules, one per source file or concern:

- `CartStore`: `useCartStore`. The mutators are functions over `seq<CartItem>`, and the class `Cart` assigns their results.
- `Browser`: the `auth_token` entry of `localStorage`, as a class over a `map<string, string>`, with JavaScript truthiness.
- `Api`: the token holder of `src/lib/api.ts`. It covers `setAuthToken` (a loop over the four clients), `getAuthToken`, the load-time arming and the two interceptors.
- `AuthStore`: `useAuthStore`. It covers `login`, `logout` (which clears the cart), `updateUser` and the persisted subset. It also models the 401 path through the token holder.
- `AuthHydrated`: the start-up reconciliation of `useAuthHydrated`, both as a state machine and as methods over the stores.
- `Pricing`: the shipping rule. Money is integer cents.
- `CartPage`, `CheckoutPage`, `ProductsPage`, `RegisterPage`, `ProfilePage`, `LoginPage`: one module per page. `Forms` holds the field rules the schemas share.
- `Utils`: `slugify`, `capitalize` and `truncate`, and the parts of JavaScript's string library they use.
- `Types` and `Wrappers`: the records of `src/types/index.ts`, and `Option`.

Where a description of the system and the code disagree, the model follows the code. A 401 response is described as ending the session. In the code it only drops the token and sends the browser to `/login` (`src/lib/api.ts:123-129`); the store is not touched (`ReceiveUnauthorized`). That navigation reloads the page: the user record, which is not persisted, is gone, but the persisted `isAuthenticated` flag is still set, and the already-hydrated path of the start-up check never clears it (`ReloadKeepsOnlyFlag`, `AlreadyHydratedAsymmetry`). The consequence for the login page is under "## Findings".

## Model

| member | source | states |
|---|---|---|
| CartStore.FindLine | src/store/index.ts:95 | the index found is the first line with the id, and one is found iff some line has the id |
| CartStore.Increment | src/store/index.ts:99-103 | every line with the id gains `q` and keeps its product snapshot, every other line is unchanged, and the length is kept |
| CartStore.SetQuantity | src/store/index.ts:124-128 | every line with the id gets quantity `q` and keeps its product snapshot, every other line is unchanged |
| CartStore.Cart.constructor | src/store/index.ts:91 | the store starts with no lines |
| CartStore.AddLine | src/store/index.ts:93-110 | with no line for the product, exactly `{product, quantity}` is appended; otherwise the length is kept; a line for the product exists afterwards |
| CartStore.AddToExistingLine | src/store/index.ts:95-104 | on a line with the product's id, `addItem` adds the quantity to that line, keeps its product snapshot and position, and leaves every other line unchanged |
| CartStore.AddLinePreservesDistinct | src/store/index.ts:95-108 | distinct product ids stay distinct after `addItem` |
| CartStore.AddLineTotals | src/store/index.ts:93-110 | `addItem(p, q)` raises the item count by `q`, and the price total by `q` times the price of the line that receives it |
| CartStore.RepeatedAdds | src/store/index.ts:93-110 | adding a new product several times yields one line at the end whose quantity is the sum of the quantities |
| CartStore.Removed | src/store/index.ts:112-116 | after `removeItem(id)` no line has the id, and an absent id changes nothing |
| CartStore.RemoveExistingLine | src/store/index.ts:112-116 | removing an existing line's id drops exactly that line and keeps the others in order |
| CartStore.RemovedIdempotent | src/store/index.ts:112-116 | removing twice is removing once, and distinct ids stay distinct |
| CartStore.RemovedTotals | src/store/index.ts:112-116 | removing a line lowers the totals by exactly that line's quantity and price times quantity |
| CartStore.UpdatedQuantity | src/store/index.ts:118-129 | a quantity of at most 0 is `removeItem`; a positive one keeps the length |
| CartStore.UpdatePositive | src/store/index.ts:124-128 | a positive quantity overwrites only the matching line's quantity, an absent id changes nothing, and ids stay distinct |
| CartStore.IncrementItems | src/store/index.ts:99-103 | raising the matching lines by `q` raises the item total by `q` per matching line |
| CartStore.IncrementPrice | src/store/index.ts:99-103 | raising the matching lines by `q` raises the price total by `q` times their prices |
| CartStore.UniqueLine | src/store/index.ts:95 | with distinct ids, exactly one line carries a present line's id |
| CartStore.TotalItems | src/store/index.ts:142-144 | an empty cart holds 0 items; with `SingleLineTotals` and `TotalsOfAppend` the total is the sum of the quantities |
| CartStore.TotalPrice | src/store/index.ts:135-140 | an empty cart costs 0; with `SingleLineTotals` and `TotalsOfAppend` the total is the sum of price times quantity |
| CartStore.SingleLineTotals | src/store/index.ts:135-144 | one line counts its quantity and costs its price times its quantity |
| CartStore.TotalsOfAppend | src/store/index.ts:135-144 | both folds distribute over concatenation |
| CartStore.TotalsExample | src/store/index.ts:135-144 | two lines at 10.00 × 2 and 5.00 × 1 total 3 items and 25.00 |
| CartStore.Cart.AddItem | src/store/index.ts:93-110 | the new lines are `AddLine` of the old, and ids stay distinct |
| CartStore.Cart.RemoveItem | src/store/index.ts:112-116 | the new lines are `Removed` of the old |
| CartStore.Cart.UpdateQuantity | src/store/index.ts:118-129 | the new lines are `UpdatedQuantity` of the old, through `removeItem` when the quantity is not positive |
| CartStore.Cart.ClearCart | src/store/index.ts:131-133 | the cart is empty and both totals are 0 |
| Browser.Lookup | src/lib/api.ts:64 | `getItem` yields the stored value exactly when the key is present |
| Api.WithDefaultAuth | src/lib/api.ts:42-48 | a truthy token sets `Authorization: Bearer <token>`, any other value deletes it, and no other header changes |
| Api.MirrorToken | src/lib/api.ts:51-57 | a truthy token is stored under `auth_token`, any other value removes that key, and no other key changes |
| Api.ResolveToken | src/lib/api.ts:60-72 | a token is returned iff the in-memory or the stored token is truthy, the in-memory one first |
| Api.AuthorizeHeaders | src/lib/api.ts:84-88 | a request carries `Authorization: Bearer <token>` iff a truthy token is resolved, and is untouched otherwise |
| Api.DefaultAuthLastWins | src/lib/api.ts:36-58 | two calls of `setAuthToken` leave the headers as the last one alone would |
| Api.SetThenResolve | src/lib/api.ts:36-72 | after `setAuthToken(t)` the stored copy resolves to `t` when `t` is truthy, and to nothing otherwise |
| Api.TokenHolder.Load | src/lib/api.ts:75-80 | at module load a stored truthy token is armed on all four clients, and the `auth_token` entry is unchanged |
| Api.TokenHolder.SetAuthToken | src/lib/api.ts:36-58 | the token is recorded, every client's headers become `WithDefaultAuth` of the old ones, and the `auth_token` entry becomes `MirrorToken` of the old |
| Api.TokenHolder.GetAuthToken | src/lib/api.ts:60-72 | it returns `ResolveToken`; an in-memory token leaves everything untouched; a stored one is armed without changing the `auth_token` entry |
| Api.TokenHolder.InterceptRequest | src/lib/api.ts:83-102 | the headers sent are `AuthorizeHeaders` of the request's, with the token `getAuthToken` resolves; the holder's token, the clients' defaults and the `auth_token` entry change exactly as `getAuthToken` changes them: a stored token is armed, the entry itself never changes |
| Api.TokenHolder.InterceptError | src/lib/api.ts:105-133 | every error is passed on unchanged; a 401 clears the token, the clients' `Authorization` and the stored key, and redirects to `/login`; other errors change nothing |
| AuthStore.MergeUserLaws | src/store/index.ts:69-76 | an empty patch is the identity and a patch applied twice equals one application |
| AuthStore.MergeUser | src/store/index.ts:73 | each supplied field of the patch wins, and each absent one keeps the user's value |
| AuthStore.ReloadKeepsOnlyFlag | src/store/index.ts:78-83 | after a reload only `isAuthenticated` survives, and the user record is lost |
| AuthStore.Partialize | src/store/index.ts:80-82 | the persisted part is the flag |
| AuthStore.Rehydrate | src/store/index.ts:78-83 | rehydration replaces the flag and keeps the user |
| AuthStore.Auth.constructor | src/store/index.ts:35-36 | the store starts with no user and the flag down |
| AuthStore.Auth.Login | src/store/index.ts:38-50 | the state becomes the user and `true`, the token is armed on all clients and mirrored to the `auth_token` entry, and the cart is untouched |
| AuthStore.Auth.Logout | src/store/index.ts:52-67 | the state becomes no user and `false`, the token leaves memory, the clients and the `auth_token` entry, and the cart is empty |
| AuthStore.Auth.UpdateUser | src/store/index.ts:69-76 | a present user is merged with the patch, and no user stays no user |
| AuthStore.ReceiveUnauthorized | src/lib/api.ts:123-129 | a 401 redirects to `/login`, drops the token from memory, removes `Authorization` from every client's defaults and removes the `auth_token` entry, while the user, the flag and the cart stay as they were |
| AuthStore.UnauthorizedReloadAtLogin | src/lib/api.ts:123-129 | as written: after a 401 and the reload it causes, an authenticated store still sends the visitor from the login page to `/`, with no token left |
| AuthStore.ReceiveUnauthorizedAsLogout | src/lib/api.ts:123-129 | corrected: a 401 that logs out leaves no user, no flag, no token and an empty cart, and after the reload the login page is shown |
| AuthHydrated.FinishHydration | src/hooks/useAuthHydrated.ts:10-27 | after the finishing callback the flag agrees with the stored token, and when they already agreed only `isHydrated` changes |
| AuthHydrated.CheckHydrated | src/hooks/useAuthHydrated.ts:30-42 | the already-hydrated path raises a missing flag when a token is stored, and never lowers it |
| AuthHydrated.FinishedIsConsistent | src/hooks/useAuthHydrated.ts:10-50 | after the finishing callback the reported value is the flag, and it is true exactly when a token is stored |
| AuthHydrated.AlreadyHydratedAsymmetry | src/hooks/useAuthHydrated.ts:16-50 | the already-hydrated path never changes the reported value and keeps a flag left without a token, which only the finishing callback clears |
| AuthHydrated.Hydration.IsAuthenticated | src/hooks/useAuthHydrated.ts:50 | the reported value is the flag or a truthy stored token |
| AuthHydrated.Hydration.constructor | src/hooks/useAuthHydrated.ts:5 | `isHydrated` starts false |
| AuthHydrated.Hydration.OnFinishHydration | src/hooks/useAuthHydrated.ts:10-27 | the new snapshot is `FinishHydration` of the old; a stored token with the flag down is armed on every client with the `auth_token` entry, user and cart untouched; the flag without a token is a logout: no user, `Authorization` removed from every client, the `auth_token` entry removed, the cart empty; agreement changes nothing but `isHydrated` |
| AuthHydrated.Hydration.CheckAlreadyHydrated | src/hooks/useAuthHydrated.ts:30-42 | the new snapshot is `CheckHydrated` of the old; a stored token with the flag down is armed on every client; otherwise token and defaults are kept; the user, the cart and the `auth_token` entry are untouched |
| AuthHydrated.Hydration.Mount | src/hooks/useAuthHydrated.ts:8-45 | the user, the cart and the `auth_token` entry are never touched; before hydration the snapshot, the token and the clients' defaults are unchanged; after it the already-hydrated check runs, with its arming of the clients |
| Pricing.ShippingCost | src/app/checkout/page.tsx:50 | shipping is 0 iff the subtotal is at least 50.00, and 5.99 otherwise |
| Pricing.OrderTotal | src/app/checkout/page.tsx:51 | the total is the subtotal plus shipping, so between the subtotal and the subtotal plus 5.99 |
| Pricing.FreeShippingRemainder | src/app/cart/page.tsx:210-212 | the hint appears iff the subtotal is below 50.00, and shows the positive amount that brings it to 50.00 |
| Pricing.RemainderReachesFreeShipping | src/app/cart/page.tsx:206-212 | adding at least the hinted amount gives free shipping, and adding less does not |
| Pricing.TotalDropsAtThreshold | src/app/cart/page.tsx:219 | just below 50.00 the grand total is higher than at 50.00 |
| CartPage.HandleUpdateQuantity | src/app/cart/page.tsx:27-34 | a quantity of at most 0 removes the line, and any other sets it |
| CartPage.HandlerAgreesWithStore | src/app/cart/page.tsx:27-34 | the page's guard gives the same lines as the store's `updateQuantity` for every quantity |
| CartPage.HandleRemoveItem | src/app/cart/page.tsx:36-39 | the line with the id is removed |
| CartPage.HandleClearCart | src/app/cart/page.tsx:41-44 | the cart is empty |
| CartPage.PressMinus | src/app/cart/page.tsx:135 | minus requests the line's quantity minus one |
| CartPage.PressPlus | src/app/cart/page.tsx:148-149 | plus, only while enabled, requests the line's quantity plus one |
| CartPage.MinusOnLine | src/app/cart/page.tsx:135 | minus on a line of quantity 1 removes exactly that line, and on a larger one lowers only that line by one |
| CartPage.StockControls | src/app/cart/page.tsx:148-184 | the warning (quantity above stock) implies the disabled plus (quantity at least stock), they differ exactly at quantity = stock, and an enabled plus never leads to the warning |
| CartPage.ArticleWord | src/app/cart/page.tsx:57-58 | the word is plural iff the item count is above 1 |
| CartPage.CartSummary | src/app/cart/page.tsx:198-220 | the summary shows the store's totals, shipping that is 0 from 50.00 and 5.99 below, the hint iff shipping is charged, and the total of subtotal and shipping |
| CartPage.ViewOf | src/app/cart/page.tsx:64-262 | the empty-cart panel is shown iff the cart has no lines; otherwise the lines are shown with `CartSummary` of them |
| CartPage.ViewAfterClearAndTotals | src/app/cart/page.tsx:64-219 | a cleared cart shows the panel and no summary, and a cart with lines shows the same total the checkout page charges |
| CheckoutPage.CheckoutView | src/app/checkout/page.tsx:54-103 | loading until hydrated, then the empty-cart view before the login check, and the form only for an authenticated customer with a non-empty cart |
| CheckoutPage.OrderLines | src/app/checkout/page.tsx:127-131 | one order line per cart line, in cart order, with that line's product id, quantity and unit price |
| CheckoutPage.OrderMatchesCart | src/app/checkout/page.tsx:127-131 | the order's lines are worth exactly the cart's price total |
| CheckoutPage.PaymentNotes | src/app/checkout/page.tsx:134 | the notes are the fixed sentence followed by the card number's last four characters, or the whole number when it is shorter |
| CheckoutPage.BuildOrder | src/app/checkout/page.tsx:126-135 | the order carries `OrderLines` of the cart, identical shipping and billing addresses `address, city postalCode, country`, and the payment notes |
| CheckoutPage.SubmitDecision | src/app/checkout/page.tsx:109-135 | missing shipping fields stop first, then missing payment fields, then the login check, and only then is the order built |
| CheckoutPage.InitialFormRejected | src/app/checkout/page.tsx:109-112 | the untouched form stops at the shipping check |
| CheckoutPage.FormNeverRedirects | src/app/checkout/page.tsx:81-124 | when the form is shown, submitting never reaches the login redirect |
| CheckoutPage.HandleSubmit | src/app/checkout/page.tsx:105-148 | the decision is `SubmitDecision`; the cart is cleared and the browser sent to the new order only when the order is created; otherwise the cart is unchanged |
| CheckoutPage.CheckoutTotal | src/app/checkout/page.tsx:49-51 | the total is the cart's price total, plus 5.99 below 50.00 |
| ProductsPage.Filter | src/app/products/page.tsx:25-33 | a product is shown iff it is loaded and passes the search and both bounds |
| ProductsPage.FilteredProducts | src/app/products/page.tsx:25-33 | nothing is shown before the products load, and afterwards exactly the products that pass |
| ProductsPage.FilterIsSubsequence | src/app/products/page.tsx:25-33 | the shown products keep the catalogue's order |
| ProductsPage.FilterCounts | src/app/products/page.tsx:25-33 | a product that passes appears as often as in the catalogue, any other not at all |
| ProductsPage.ResetShowsAll | src/app/products/page.tsx:100-104 | with the filters reset every loaded product is shown, in order |
| ProductsPage.ContainsEmpty | src/app/products/page.tsx:26 | an empty search term matches every name |
| ProductsPage.SearchIgnoresCase | src/app/products/page.tsx:26-27 | the search gives the same answer for a term and its lower-case form |
| ProductsPage.UnreadableBoundKeepsNothing | src/app/products/page.tsx:29 | a non-empty minimum that does not parse as a number keeps no product |
| ProductsPage.ResetClearsNoResults | src/app/products/page.tsx:195-210 | after the reset the "no product" panel shows only for an empty catalogue |
| ProductsPage.HandleAddToCart | src/app/products/page.tsx:35-37 | an enabled button (stock not 0) adds the product with quantity 1, and the item count rises by one |
| Forms.ContactErrors | src/app/register/page.tsx:17-26 | each shared field is reported iff its rule fails: names, city and country under 2 characters, address under 5, a postal code that is not five digits, an invalid email; the phone never |
| Forms.LoginErrors | src/app/login/page.tsx:16-19 | the email is reported iff it is invalid, the password iff it has fewer than 6 characters |
| RegisterPage.RegisterErrors | src/app/register/page.tsx:16-30 | the password is reported iff it has fewer than 6 characters, the confirmation iff it differs from the password, and the other fields as the shared rules say |
| RegisterPage.RegisterSubmit | src/app/register/page.tsx:59-63 | a payload is sent iff nothing is reported, and it is the form without `confirmPassword` |
| RegisterPage.AcceptedRegistration | src/app/register/page.tsx:16-30 | an accepted payload's password equals the confirmation and is at least 6 characters long, and its contact fields pass |
| RegisterPage.InitialRegisterErrors | src/app/register/page.tsx:16-49 | the untouched form fails on the names, the password, the address, the city and the postal code, but not on the country or the confirmation |
| RegisterPage.MismatchAlwaysReported | src/app/register/page.tsx:27-30 | a mismatch is reported on `confirmPassword` whatever the other fields hold, and blocks submission |
| LoginPage.LoginSubmit | src/app/login/page.tsx:16-46 | the form is forwarded unchanged iff the email is valid and the password has at least 6 characters |
| Forms.GuestOnlyRedirect | src/app/login/page.tsx:37-42 | an authenticated visitor, and only one, is sent to `/`; the registration page's effect (src/app/register/page.tsx:52-57) is the same rule |
| LoginPage.LoginIsRegisterRestricted | src/app/login/page.tsx:16-19 | the login schema's errors are the registration schema's errors on the email and the password |
| LoginPage.RegisteredCredentialsPass | src/app/login/page.tsx:16-19 | credentials that registration accepted pass the login schema unchanged |
| ProfilePage.ProfileErrors | src/app/profile/page.tsx:16-25 | a field is reported iff the shared contact rules report it, and the password fields never are |
| ProfilePage.ProfileIsRegisterWithoutPasswords | src/app/profile/page.tsx:16-25 | the profile schema reports what the registration schema reports, minus the two password fields |
| ProfilePage.FormOf | src/app/profile/page.tsx:53-62 | a loaded profile fills the form field for field, with a missing phone as "" |
| ProfilePage.ReloadedProfileErrors | src/app/profile/page.tsx:16-62 | the phone plays no part in validating a loaded profile |
| ProfilePage.RoleLabel | src/app/profile/page.tsx:116 | "Administrateur" iff the user is an admin, and "Client" otherwise, including when there is no user |
| ProfilePage.ProfileRedirect | src/app/profile/page.tsx:45-49 | an unauthenticated visitor is sent to `/login` |
| ProfilePage.Profile.OnProfile | src/app/profile/page.tsx:51-64 | a loaded profile resets the form to `FormOf` it |
| ProfilePage.Profile.Edit | src/app/profile/page.tsx:121-123 | edit mode is entered and the form kept |
| ProfilePage.Profile.Input | src/app/profile/page.tsx:153-213 | the inputs change the form only in edit mode |
| ProfilePage.Profile.Cancel | src/app/profile/page.tsx:74-88 | the form is restored from the loaded profile and edit mode is left |
| ProfilePage.Profile.Submit | src/app/profile/page.tsx:66-72 | the values are sent iff the schema accepts them, and edit mode is left only when the update succeeds |
| Utils.Lower | src/lib/utils.ts:36 | every character is lower-cased and the length is kept |
| Utils.Trim | src/lib/utils.ts:37 | the result is the slice of the input between its leading white space and its trailing white space, starts and ends with a non-space, and keeps the count of every other character |
| Utils.DashSpaces | src/lib/utils.ts:38 | the result holds no white space, and a string without white space is kept |
| Utils.DashSpacesCounts | src/lib/utils.ts:38 | every character other than white space and the dash is kept, as often as it occurs |
| Utils.DashSpacesRun | src/lib/utils.ts:38 | a run of white space becomes a single dash |
| Utils.DashSpacesAppend | src/lib/utils.ts:38 | cut anywhere outside a run of white space, the pieces are dashed separately; with the two lemmas above this pins the result down |
| Utils.StripNonWord | src/lib/utils.ts:39 | only word characters and dashes remain, and a slug is kept |
| Utils.StripNonWordCounts | src/lib/utils.ts:39 | every word character and dash is kept, as often as it occurs |
| Utils.StripNonWordAppend | src/lib/utils.ts:39 | characters are kept or dropped one by one, so the kept ones stay in order |
| Utils.CollapseDashes | src/lib/utils.ts:40 | no two dashes in a row remain, the first character is kept, and a string without a double dash is kept |
| Utils.CollapseDashesCounts | src/lib/utils.ts:40 | every character but the dash is kept, as often as it occurs |
| Utils.CollapseDashesRun | src/lib/utils.ts:40 | a run of dashes becomes a single dash |
| Utils.CollapseDashesAppend | src/lib/utils.ts:40 | cut anywhere outside a run of dashes, the pieces are collapsed separately |
| Utils.Slugify | src/lib/utils.ts:33-41 | a slug holds only `[a-z0-9_-]` and never two dashes in a row |
| Utils.SlugifyKeepsWordChars | src/lib/utils.ts:33-41 | every letter (lower-cased), digit and underscore of the input is in the slug, as often as in the input |
| Utils.SlugIsFixed | src/lib/utils.ts:33-41 | a string of slug characters without a double dash is its own slug |
| Utils.SlugifyExample | src/lib/utils.ts:33-41 | " A  b!" becomes "a-b" |
| Utils.SlugifyExampleLower | src/lib/utils.ts:36 | " A  b!" lower-cases to " a  b!" |
| Utils.SlugifyExampleTrim | src/lib/utils.ts:37 | " a  b!" trims to "a  b!" |
| Utils.SlugifyExampleDash | src/lib/utils.ts:38 | "a  b!" becomes "a-b!" |
| Utils.SlugifyExampleStrip | src/lib/utils.ts:39 | "a-b!" becomes "a-b" |
| Utils.SlugifyExampleCollapse | src/lib/utils.ts:40 | "a-b" is kept |
| Utils.LeadingSpaces | src/lib/utils.ts:37 | the count of the white-space characters the input starts with |
| Utils.SlugifyIdempotent | src/lib/utils.ts:33-41 | the slug of a slug is the slug |
| Utils.SliceFrom | src/lib/utils.ts:44 | a negative start counts from the end, a start before the beginning gives the whole string, and a start past the end gives "" |
| Utils.Capitalize | src/lib/utils.ts:43-45 | the first character is upper-cased, the rest is unchanged, and "" stays "" |
| Utils.CapitalizeIdempotent | src/lib/utils.ts:43-45 | capitalizing twice is capitalizing once, and only the first character changes |
| Utils.Truncate | src/lib/utils.ts:47-50 | a text that fits is returned as is, and a longer one is cut to `length` characters followed by "..." |
| Utils.TruncateIsMarkedPrefix | src/lib/utils.ts:47-50 | the result is the text, or a prefix of it marked with "...", at most `length + 3` characters long |

## Left out

- Rendering, routing and toasts. Navigation is a returned `Route`, and messages are not modelled.
- Server-side rendering. Every `typeof window !== 'undefined'` test is taken as true.
- The HTTP requests, axios, react-query and the service modules. Their answers become parameters: `created` in `CheckoutPage.HandleSubmit` and `updated` in `ProfilePage.Profile.Submit`.
- zod's email grammar and `parseFloat`. They are the parameters `isEmail` and `parse`. `parse` yields cents, and its `None` stands for `NaN`.
- Floating-point prices. Every amount is an integer number of cents, so rounding of sums is not modelled. The `typeof price === 'string'` branch of the order payload is not modelled either, since prices are numbers here.
- The timing of the `persist` middleware. Whether hydration has finished is the parameter of `AuthHydrated.Hydration.Mount`, and the finishing callback is a separate method.
- Browser.Storage: holds only the `auth_token` key. The `auth-storage` key, which `persist` rewrites on every `set` of the auth store (src/store/index.ts:33, 78-83), including login, logout and the hook's `setState`, is not in it; `AuthStore.Partialize` and `AuthStore.Rehydrate` stand for it. So a contract that says storage is unchanged, or that names one removed key, speaks of the `auth_token` entry only.
- zustand's persistence of the cart under `cart-storage`, which `clearCart` in `logout` also rewrites (src/store/index.ts:89, 147). The cart's persisted copy is not modelled.
- `useUIStore`, `formatPrice`, `formatDate`, `formatDateTime` and `cn`. These are presentation helpers.
- Utils.Lower: only ASCII letters change case, whereas `toLowerCase` and `toUpperCase` map all of Unicode.
- Utils.Capitalize: `charAt(0)` is taken as the first character, whereas JavaScript counts UTF-16 code units. The same holds for `slice`, `length` and the minimum lengths of the forms.
- Forms.ContactErrors: an absent phone and an empty one are the same string. Inputs that were never typed into are read as "".
- CartStore.TotalItems and CartStore.TotalPrice: they are plain folds, and their meaning is stated by the lemmas about them rather than in their own contracts.

## Findings

| source | as written | input that shows it | evidently intended | confidence | as-written member | corrected member |
|---|---|---|---|---|---|---|
| src/lib/api.ts:123-129 | a 401 drops the token and navigates to `/login`, but leaves the persisted `isAuthenticated` flag set, so after the reload the login page's effect (src/app/login/page.tsx:37-42) sends the visitor to `/` | a signed-in visitor whose token has expired makes any request, which answers 401 | a 401 ends the session as `logout` does, so the login form is shown | medium, not executed: it assumes `persist` restores the flag from `localStorage` before the login page's effect runs | AuthStore.UnauthorizedReloadAtLogin | AuthStore.ReceiveUnauthorizedAsLogout |
