# Discountify core in Dafny

Discountify is a small shop-and-discount web application. An Express
backend over a PostgreSQL database keeps shops and their discounts, issues
a JWT cookie at login, and lists discounts filtered by date, category, city
and free text. A React client keeps its state in two zustand stores and an
auth context, and its pages validate forms before calling the stores.

This project models that core and proves properties of it.

- **Database.** The two tables and the constraints their schema declares
  (`Schema.Tables`): `VARCHAR` widths, `UNIQUE` email, the percentage
  `CHECK`, the foreign key with `ON DELETE CASCADE`, and `SERIAL` ids.
- **Backend handlers.** The shop, discount and auth controllers, run
  against those tables. Each handler returns a status and a body.
- **Discount query.** The clauses `getDiscounts` assembles, and what those
  clauses mean as a predicate on joined rows.
- **Token, gate and cache.** The JWT middleware over an abstract
  sign/verify pair, the Arcjet gate over an abstract protection decision,
  and the no-cache middleware.
- **Discount card.** How the card classifies a discount as Active, Expired
  or Upcoming.
- **Client state.** The shop store, the discount store and the auth
  context, as classes whose methods update their fields.
- **Pages.** The form checks, disabled rules, change handlers and submit
  guards of the register, login, manage-shop and discount pages and of the
  add-discount dialog.

Each outside effect becomes a parameter of the model:

| effect in the source | parameter in the model |
|---|---|
| database outage | `outage` flag |
| HTTP call | `Outcome` (the response, or the failure) |
| clock | `now` / `today` |
| type casts the database performs | `Casts` |
| bcrypt comparison | `compare` |
| email regular expression | `pattern` |
| `Date` / `parseFloat` / `parseInt` conversions | `Conversions` |

## Model

| member | source | states |
|---|---|---|
| Json.Merge | frontend/src/store/useShopStore.js:23-25 | `{...base, ...patch}`: the keys of both, patch values win, base values kept elsewhere |
| Json.OrDefault | frontend/src/pages/ManageShopPage.jsx:43-51 | `a \|\| b`: a truthy value is kept, otherwise the default string; the result is truthy exactly when the value is or the default is non-empty |
| Text.TrimStart | frontend/src/pages/ShopRegisterPage.jsx:19 | the result is a suffix, what was dropped is all white space, and it does not start with white space |
| Text.TrimEnd | frontend/src/pages/ShopRegisterPage.jsx:19 | the result is a prefix, what was dropped is all white space, and it does not end with white space |
| Text.TrimEmptyIffBlank | frontend/src/pages/ShopRegisterPage.jsx:19-27 | `trim()` gives `""` exactly for strings made only of white space |
| Text.TrimKeepsNonBlank | frontend/src/pages/ShopRegisterPage.jsx:19 | a string with a non-white-space character does not trim to empty |
| Text.EightSpacesTrimToEmpty | frontend/src/pages/ShopRegisterPage.jsx:22-24 | eight spaces are long enough for the length check yet trim to empty |
| Text.Utf16Length | frontend/src/pages/ShopRegisterPage.jsx:23 | `.length` counts UTF-16 code units: at least one and at most two per character |
| Text.Utf16LengthOfBmp | frontend/src/pages/ShopRegisterPage.jsx:23 | a string without characters beyond U+FFFF has as many code units as characters |
| Text.Lower | backend/controllers/discountController.js:68-73 | lower-casing keeps the length, leaves no capital letter, keeps every other character and maps each capital to its small letter |
| Text.LowerIdempotent | backend/controllers/discountController.js:68-73 | lower-casing twice is lower-casing once |
| Text.IgnoringCaseIgnoresCase | backend/controllers/discountController.js:68-73 | the case-insensitive test does not change when either side is lower-cased first |
| Text.Contains | backend/controllers/discountController.js:68-73 | the substring test holds exactly when the term occurs at some offset |
| Text.ContainsEmpty | backend/controllers/discountController.js:68-73 | the empty term occurs in every text |
| Text.ContainsExtends | backend/controllers/discountController.js:68-73 | a term found in a text is still found after text is appended |
| Sorting.Insert | backend/controllers/shopController.js:6-9 | inserting into a sorted list keeps it sorted and adds exactly that element |
| Sorting.SortBy | backend/controllers/shopController.js:6-9 | `ORDER BY` yields a sorted permutation of the rows |
| Sorting.ListSet | backend/controllers/shopController.js:6-9 | the rows of a table as a list, each once |
| Schema.CascadeDelete | backend/server.js:101 | `ON DELETE CASCADE` removes exactly the discounts of that shop and keeps the rest unchanged |
| Schema.Tables.constructor | backend/server.js:84-110 | the tables start empty and valid |
| Schema.Tables.InsertShop | backend/server.js:86-96 | too-long text fails; a taken email fails as a unique violation; otherwise a row with the next serial id; the tables stay valid |
| Schema.Tables.UpdateShopRow | backend/controllers/shopController.js:74-96 | a missing id changes nothing; then the width and unique checks; otherwise the row is replaced, keeping id and `created_at` |
| Schema.Tables.DeleteShopRow | backend/controllers/shopController.js:120-131 | a missing id changes nothing; otherwise the shop and its discounts go and the deleted row is returned |
| Schema.Tables.InsertDiscount | backend/server.js:98-110 | width check, then the percentage `CHECK`, then the foreign key; otherwise a new row with the next serial id |
| Schema.AtMostOneShopPerEmail | backend/server.js:90 | in valid tables two shops with the same email are the same shop |
| Tokens.Sign | backend/controllers/authController.js:19-20 | a signed token that lives seven days |
| Tokens.Verify | backend/middleware/verifyToken.js:11-19 | a token verifies exactly when it was signed with this secret and has not expired; it then yields its claims |
| Tokens.SignThenVerify | backend/middleware/verifyToken.js:11-14 | within seven days a login token verifies to its claims |
| Tokens.SignedTokenExpires | backend/controllers/authController.js:20 | after seven days the token is refused |
| Tokens.ForeignSecretRejected | backend/middleware/verifyToken.js:11-19 | a token signed with another secret is refused |
| ShopController.ShopColumnsOf | backend/controllers/shopController.js:23-33 | columns exactly when the four fields pass the guard and each casts to text, and each column is its field's cast |
| ShopController.GetShops | backend/controllers/shopController.js:4-17 | 200 with every row once, newest `created_at` first; 500 on an outage |
| ShopController.CreateShop | backend/controllers/shopController.js:20-40 | 400 for a missing field; 201 with the new row exactly when the insert succeeds; a duplicate email gives 500, not 409 |
| ShopController.GetShop | backend/controllers/shopController.js:43-56 | never 404: an unknown id gives 200 with no row; only an outage or a bad id cast gives 500 |
| ShopController.UpdateShop | backend/controllers/shopController.js:59-113 | 400 for a missing field, 404 for an unknown id, 409 when another shop holds the email, otherwise 200 with the updated row |
| ShopController.DeleteShop | backend/controllers/shopController.js:116-136 | 404 exactly for an unknown id; otherwise the shop and its discounts are removed and returned |
| DiscountController.DiscountColumnsOf | backend/controllers/discountController.js:13-40 | columns exactly when the six fields pass the falsy guard and each casts, and each column is its field's cast |
| DiscountController.AddDiscount | backend/controllers/discountController.js:3-45 | 400 for a falsy field; 201 with the new row exactly when the insert succeeds; 500 otherwise |
| DiscountController.ZeroPercentageRejected | backend/controllers/discountController.js:13-18 | a numeric 0 percentage fails the guard although the schema allows it |
| DiscountController.StringZeroPassesGuard | backend/controllers/discountController.js:13-18 | `"0"` is truthy and `0` is not |
| DiscountController.GroupClause | backend/controllers/discountController.js:50-73 | each filter group (date, category, city, search) gives at most one clause, the requested one |
| DiscountController.PushGroup | backend/controllers/discountController.js:50-73 | pushing the next group's clause keeps the list exactly the requested clauses so far, in order |
| DiscountController.PushedUpToLists | backend/controllers/discountController.js:50-73 | the clauses pushed for the first n groups are exactly those requested, at most n of them |
| DiscountController.PushedIsFilterList | backend/controllers/discountController.js:50-73 | the four groups give the filter list of the query |
| DiscountController.BuildFilters | backend/controllers/discountController.js:50-73 | the four guarded pushes build the query's filter list, at most four clauses |
| DiscountController.Join | backend/controllers/discountController.js:75 | joining one part is that part; joining none is empty |
| DiscountController.JoinConcat | backend/controllers/discountController.js:75 | joining two non-empty lists is joining each, with one separator between |
| DiscountController.HeadHasLeastRank | backend/controllers/discountController.js:50-73 | in a rank-ordered list the first clause has the least rank |
| DiscountController.SameTail | backend/controllers/discountController.js:50-73 | two rank-ordered lists with the same elements and head have tails with the same elements |
| DiscountController.RankSortedUnique | backend/controllers/discountController.js:50-73 | two rank-ordered lists with the same elements are equal |
| DiscountController.FilterListUnique | backend/controllers/discountController.js:50-73 | a query has one filter list |
| DiscountController.WhereEmptyIffNoFilter | backend/controllers/discountController.js:75 | the `WHERE` fragment is empty exactly when no filter is requested |
| DiscountController.WhereFragment | backend/controllers/discountController.js:75 | the fragment is empty exactly when there is no filter, and starts with `WHERE ` otherwise |
| DiscountController.WhereFragmentSingle | backend/controllers/discountController.js:75 | one filter gives `WHERE ` and that filter's SQL |
| DiscountController.WhereFragmentAppend | backend/controllers/discountController.js:75 | one more filter adds ` AND ` and its SQL at the end |
| DiscountController.ClausesSqlAppend | backend/controllers/discountController.js:75 | one more filter adds its SQL at the end of the parts |
| DiscountController.TodayOnlyWhere | backend/controllers/discountController.js:52-54 | `?date=today` alone gives `WHERE` and the today clause |
| DiscountController.OtherDateAddsNoClause | backend/controllers/discountController.js:52-58 | a date other than today, tomorrow and week adds no date clause |
| DiscountController.FiltersMeanQuery | backend/controllers/discountController.js:50-75 | a row satisfies the clauses exactly when it satisfies the query's meaning |
| DiscountController.NoFilterSelectsAll | backend/controllers/discountController.js:75-86 | with no filter every discount joined to its shop is selected |
| DiscountController.GetDiscounts | backend/controllers/discountController.js:47-94 | 200 with the selected joined rows, earliest start date first; 500 exactly on an outage |
| AuthController.LoginCookieOptions | backend/controllers/authController.js:22-27 | the cookie is http-only, `lax`, secure only in production, and lasts seven days |
| AuthController.CookieMatchesTokenLifetime | backend/controllers/authController.js:20-26 | the cookie's lifetime equals the token's |
| AuthController.ShopByEmail | backend/controllers/authController.js:9-10 | the shop found has that email |
| AuthController.LoginDecision | backend/controllers/authController.js:6-37 | accepted exactly for a known email whose password compares true; rejected for an undefined or null email, as for an unknown one, and for a wrong password |
| AuthController.UnknownEmailLikeWrongPassword | backend/controllers/authController.js:11-17 | an unknown email and a wrong password get the same answer |
| AuthController.ShopSummary | backend/controllers/authController.js:29-30 | the returned shop has id, name and email and no password hash |
| AuthController.LoginClaims | backend/controllers/authController.js:19 | the token names the shop's id and name |
| AuthController.Login | backend/controllers/authController.js:6-37 | on acceptance a cookie with a verifying token and 200 with the summary; 401 or 500 otherwise, no cookie |
| AuthController.Logout | backend/controllers/authController.js:41-44 | the cookie is cleared and 200 is sent |
| AuthController.CheckAuth | backend/controllers/authController.js:47-52 | 200 with the principal when one is set; 401 otherwise |
| VerifyToken.PrincipalOf | backend/middleware/verifyToken.js:14 | the principal carries the token's shop id and name |
| VerifyToken.Required | backend/middleware/verifyToken.js:3-20 | no token gives 401; a refused token gives 401; a valid one sets the principal and calls next |
| VerifyToken.Optional | backend/middleware/verifyToken.js:22-34 | always calls next; sets the principal only for a valid token |
| VerifyToken.LoginTokenIdentifiesShop | backend/middleware/verifyToken.js:11-15 | the login token, within its lifetime, makes the principal that shop |
| VerifyToken.LoginTokenLapses | backend/middleware/verifyToken.js:11-19 | after seven days the login token no longer authenticates |
| Server.AnySpoofed | backend/server.js:54-56 | true exactly when some result is a spoofed bot |
| Server.GateVerdict | backend/server.js:40-67 | a denial refuses with 429 for a rate limit and 403 otherwise; a spoofed result refuses; an error passes to next with it |
| Server.DenialNeverPasses | backend/server.js:44-52 | a denied decision never reaches the routes, with the message for its reason |
| Server.SpoofedResultRefuses | backend/server.js:54-60 | one spoofed result is enough to refuse |
| Server.Protect | backend/server.js:40-67 | sends the verdict's refusal, or calls next, with or without the error |
| Server.NoCacheHeadersSet | backend/server.js:70-76 | the four headers are set with their values and every other header is kept |
| Server.NoCache | backend/server.js:70-76 | sets the four headers and calls next |
| DiscountCard.DayOfWithinDay | frontend/src/components/DiscountCard.jsx:40 | every instant of a day falls in that calendar day |
| DiscountCard.ParseDate | frontend/src/components/DiscountCard.jsx:20-34 | a missing or falsy date stays null; a present string date is that string parsed |
| DiscountCard.Classify | frontend/src/components/DiscountCard.jsx:36-40 | days left exist exactly with an end date and count calendar days |
| DiscountCard.ClassifyExclusive | frontend/src/components/DiscountCard.jsx:37-39 | active and expired exclude each other; active means start ≤ now ≤ end; expired means end < now |
| DiscountCard.NoEndDateIsUpcoming | frontend/src/components/DiscountCard.jsx:58-72 | without an end date the card says Upcoming and shows no days left |
| DiscountCard.OneBadgeOneFooter | frontend/src/components/DiscountCard.jsx:58-72 | exactly one badge and the matching footer |
| DiscountCard.DayWord | frontend/src/components/DiscountCard.jsx:104 | "day" exactly for one day left |
| DiscountCard.ActiveDaysLeftNonNegative | frontend/src/components/DiscountCard.jsx:100-107 | an active card shows a non-negative "ends in" |
| DiscountCard.DayOfMonotone | frontend/src/components/DiscountCard.jsx:40 | later instants fall on the same or a later day |
| DiscountCard.EndDayShowsExpired | frontend/src/components/DiscountCard.jsx:36-39 | on its last day after midnight, a discount listed by `?date=today` shows Expired |
| DiscountCard.ClassifyByDay | frontend/src/components/DiscountCard.jsx:36-40 | the corrected, calendar-day classification: exclusive; active cards have days left ≥ 0 |
| DiscountCard.ClassifyByDayMatchesTodayFilter | backend/controllers/discountController.js:52-54 | the corrected card is active exactly when the backend's today filter lists the row |
| DiscountCard.CardBadges | frontend/src/components/DiscountCard.jsx:58-72 | one badge per card, Upcoming without an end date |
| Client.ServerMessage | frontend/src/store/useShopStore.js:64 | `error.response?.data?.message`: absent without a response, the body's message when it has one |
| Client.MessageOr | frontend/src/store/useDiscountStore.js:45 | the server's message if truthy, the fallback otherwise; always truthy |
| Client.Payload | frontend/src/store/useDiscountStore.js:42 | `response.data.data` is defined exactly when the body has a `data` field, and is that field |
| ShopStore.BlankForm | frontend/src/store/useShopStore.js:26-35 | five keys, all `""` |
| ShopStore.ShopPayload | frontend/src/store/useShopStore.js:42-47 | the posted body has exactly the name, email, password and city the form has |
| ShopStore.LoginPayload | frontend/src/store/useShopStore.js:83-87 | the posted body has exactly the email and password the form has |
| ShopStore.StatusMessage | frontend/src/store/useShopStore.js:54-65 | the message shown is always truthy |
| ShopStore.StatusMessageMeaning | frontend/src/store/useShopStore.js:54-65 | the special status shows the server's message or its default; other statuses the server's message or the fallback |
| ShopStore.AddShopMessage | frontend/src/store/useShopStore.js:54-65 | a truthy message for every failure |
| ShopStore.LoginMessage | frontend/src/store/useShopStore.js:92-103 | a truthy message for every failure |
| ShopStore.RegisterPayloadRefused | frontend/src/store/useShopStore.js:42-47 | the posted body never has `password_hash`, so the backend refuses it with 400, and the page shows that message |
| ShopStore.DuplicateEmailShowsInternalError | frontend/src/store/useShopStore.js:58-61 | the 409 branch never fires for a duplicate email: the backend sends 500 |
| ShopStore.RemoveId | frontend/src/store/useShopStore.js:132-134 | keeps exactly the elements whose id is not strictly equal to the deleted one |
| ShopStore.RemoveIdConcat | frontend/src/store/useShopStore.js:132-134 | filtering distributes over concatenation |
| ShopStore.RemoveAbsentIdKeepsAll | frontend/src/store/useShopStore.js:132-134 | an id none of the shops has (a string against numeric ids) removes nothing |
| ShopStore.UpdaterLeavesForm | frontend/src/store/useShopStore.js:23-25 | spreading an updater function merges nothing |
| ShopStore.SpreadUpdate | frontend/src/store/useShopStore.js:23-25 | spreading an object gives its own fields; spreading a function gives none |
| ShopStore.Store.constructor | frontend/src/store/useShopStore.js:9-21 | the initial state |
| ShopStore.Store.SetFormData | frontend/src/store/useShopStore.js:23-25 | the form merges the patch; nothing else changes |
| ShopStore.Store.ResetForm | frontend/src/store/useShopStore.js:26-35 | the form is blank; nothing else changes |
| ShopStore.Store.AddShop | frontend/src/store/useShopStore.js:38-72 | posts the payload; on success clears the error, resets the form and resolves true; on failure records and rejects with the message; loading ends |
| ShopStore.Store.LoginShop | frontend/src/store/useShopStore.js:75-110 | posts email and password; resolves true on success; on failure records and rejects with the message |
| ShopStore.Store.FetchShops | frontend/src/store/useShopStore.js:113-125 | stores `data.data` on success; on failure the list becomes empty and the message is recorded |
| ShopStore.Store.DeleteShop | frontend/src/store/useShopStore.js:128-144 | on success the shops with that id go; on failure the list is kept and the message recorded |
| ShopStore.Store.FetchShop | frontend/src/store/useShopStore.js:147-163 | on success sets the current shop and fills the form with blank passwords; on failure the current shop becomes null |
| ShopStore.Store.UpdateShop | frontend/src/store/useShopStore.js:166-186 | puts the payload; on success sets the current shop; on failure records the message |
| DiscountStore.BlankForm | frontend/src/store/useDiscountStore.js:26-36 | six keys, all `""` |
| DiscountStore.DiscountPayload | frontend/src/store/useDiscountStore.js:58-67 | defined exactly when both dates convert; the form's fields with the four converted ones replaced |
| DiscountStore.PayloadKeepsTypedText | frontend/src/store/useDiscountStore.js:61-62 | title and category are sent as typed |
| DiscountStore.Store.constructor | frontend/src/store/useDiscountStore.js:8-19 | the initial state |
| DiscountStore.Store.SetFormData | frontend/src/store/useDiscountStore.js:21-24 | the form merges the patch; nothing else changes |
| DiscountStore.Store.ResetForm | frontend/src/store/useDiscountStore.js:26-36 | the form is blank; nothing else changes |
| DiscountStore.Store.FetchShops | frontend/src/store/useDiscountStore.js:38-51 | stores `data.data` on success; on failure keeps the list and records the message |
| DiscountStore.Store.FetchDiscounts | frontend/src/store/useDiscountStore.js:90-104 | stores `data.data` on success; on failure keeps the list and records the message |
| DiscountStore.Store.AddDiscount | frontend/src/store/useDiscountStore.js:53-88 | a date that does not convert sends nothing; on success refetches, resets the form and toasts; on failure toasts the message and keeps the form |
| AuthContext.LogoutPatch | frontend/src/context/AuthContext.jsx:136-141 | four keys, all `""`, one of them `shopName` |
| AuthContext.LogoutKeepsShopName | frontend/src/context/AuthContext.jsx:136-141 | logout leaves the form's `shop_name` as it was |
| AuthContext.Provider.constructor | frontend/src/context/AuthContext.jsx:88-90 | no user, loading |
| AuthContext.Provider.CheckAuth | frontend/src/context/AuthContext.jsx:92-112 | a successful check sets the user; otherwise no user and the token and shop entries are removed; loading ends |
| AuthContext.Provider.Login | frontend/src/context/AuthContext.jsx:118-123 | stores the token and the shop text and sets the user |
| AuthContext.Provider.Logout | frontend/src/context/AuthContext.jsx:125-142 | no user, entries removed, the shop store's form merges the logout patch and nothing else of it changes |
| AuthContext.StoredKeysOmitShopId | frontend/src/context/AuthContext.jsx:118-142 | the context never writes or removes `shop_id` |
| ShopRegisterPage.BlankMeansTrimmedEmpty | frontend/src/pages/ShopRegisterPage.jsx:19 | blank means `trim()` leaves nothing |
| ShopRegisterPage.ShopNameError | frontend/src/pages/ShopRegisterPage.jsx:19 | an error exactly for a blank name |
| ShopRegisterPage.EmailError | frontend/src/pages/ShopRegisterPage.jsx:20-21 | an error exactly when the pattern does not match |
| ShopRegisterPage.PasswordError | frontend/src/pages/ShopRegisterPage.jsx:22-24 | an error exactly for blank or short (under eight UTF-16 code units); the length message wins |
| ShopRegisterPage.ConfirmError | frontend/src/pages/ShopRegisterPage.jsx:25-26 | an error exactly when the two differ strictly |
| ShopRegisterPage.CityError | frontend/src/pages/ShopRegisterPage.jsx:27 | an error exactly for a blank city |
| ShopRegisterPage.Errors | frontend/src/pages/ShopRegisterPage.jsx:17-29 | each field is in the map exactly when its check fails, with its own message |
| ShopRegisterPage.ValidateForm | frontend/src/pages/ShopRegisterPage.jsx:17-29 | the step-by-step assignments give that map |
| ShopRegisterPage.PasswordMessages | frontend/src/pages/ShopRegisterPage.jsx:22-24 | short or empty shows the length message; eight spaces and undefined show "required" |
| ShopRegisterPage.LengthCountsCodeUnits | frontend/src/pages/ShopRegisterPage.jsx:22-24 | four emoji are eight code units and pass the length check; four letters do not |
| ShopRegisterPage.SubmitDisabled | frontend/src/pages/ShopRegisterPage.jsx:147-154 | an enabled button means not loading and every form field a non-blank string |
| ShopRegisterPage.EnabledFormHasNoRequiredErrors | frontend/src/pages/ShopRegisterPage.jsx:147-154 | an enabled button means no name or city error, and only the length message for the password |
| ShopRegisterPage.ChangeReplacesOnlyField | frontend/src/pages/ShopRegisterPage.jsx:69-71 | a field's change replaces that field only |
| ShopRegisterPage.GeneralMessage | frontend/src/pages/ShopRegisterPage.jsx:45 | the thrown message, or the fallback |
| ShopRegisterPage.Page.constructor | frontend/src/pages/ShopRegisterPage.jsx:14 | no errors, nothing called |
| ShopRegisterPage.Page.HandleSubmit | frontend/src/pages/ShopRegisterPage.jsx:31-47 | errors stop the call; otherwise one call, then navigation or the general message |
| ShopRegisterPage.Page.HandleSubmitAsWritten | frontend/src/pages/ShopRegisterPage.jsx:31-47 | as written, `registerShop` is undefined: errors stop the call, and a valid form shows the thrown TypeError's message and never navigates |
| ShopLoginPage.Errors | frontend/src/pages/ShopLoginPage.jsx:20-29 | only email and password, each exactly when its check fails |
| ShopLoginPage.ValidateForm | frontend/src/pages/ShopLoginPage.jsx:20-29 | the step-by-step assignments give that map |
| ShopLoginPage.NoErrorsIff | frontend/src/pages/ShopLoginPage.jsx:20-29 | no errors exactly for a matching email and a non-blank password |
| ShopLoginPage.SpacesPasswordEnabledButRefused | frontend/src/pages/ShopLoginPage.jsx:92 | a password of spaces enables the button yet fails the check |
| ShopLoginPage.SubmitDisabled | frontend/src/pages/ShopLoginPage.jsx:92 | an enabled button means not loading and a truthy email and password |
| ShopLoginPage.ChangeKeepsOtherFields | frontend/src/pages/ShopLoginPage.jsx:65 | a field's change replaces that field only |
| ShopLoginPage.GeneralMessage | frontend/src/pages/ShopLoginPage.jsx:46 | the thrown message, or "Login failed" |
| ShopLoginPage.StoreResultCarriesNothing | frontend/src/pages/ShopLoginPage.jsx:40-42 | the hand-off has a token exactly when the resolved value is an object with `token`, a shop exactly when it has `data`; the store resolves `true`, so neither |
| ShopLoginPage.Page.constructor | frontend/src/pages/ShopLoginPage.jsx:11 | no errors, nothing called |
| ShopLoginPage.Page.HandleSubmit | frontend/src/pages/ShopLoginPage.jsx:31-48 | errors stop the call; otherwise one call, then the hand-off or the general message |
| ManageShopPage.FetchTarget | frontend/src/pages/ManageShopPage.jsx:37-41 | a shop is fetched exactly when the user has a truthy id, and it is that id |
| ManageShopPage.NoUserNoFetch | frontend/src/pages/ManageShopPage.jsx:37-41 | a user that is not an object, has no `id`, or has a falsy `id` fetches nothing |
| ManageShopPage.InitialPatch | frontend/src/pages/ManageShopPage.jsx:43-51 | with shop data, its name, email and city, `""` for a falsy one |
| ManageShopPage.UndefinedShopDataNoInit | frontend/src/pages/ManageShopPage.jsx:43-51 | a store without `shopData` never fills the form from it |
| ManageShopPage.HandleChangeUpdate | frontend/src/pages/ManageShopPage.jsx:53-56 | as written, the handler passes an updater function, which spreads to no fields |
| ManageShopPage.CorrectedChangeUpdate | frontend/src/pages/ManageShopPage.jsx:53-56 | the corrected update spreads to exactly the changed field with the typed value |
| ManageShopPage.HandleChangeIgnored | frontend/src/pages/ManageShopPage.jsx:53-56 | as written, a change leaves the form as it was |
| ManageShopPage.CorrectedChangeSetsField | frontend/src/pages/ManageShopPage.jsx:53-56 | the corrected handler sets the field and keeps the others |
| ManageShopPage.PasswordGuard | frontend/src/pages/ManageShopPage.jsx:69-83 | missing exactly when one field is falsy; an update exactly when all are truthy and the two new ones are strictly equal |
| ManageShopPage.SpacesPassGuard | frontend/src/pages/ManageShopPage.jsx:73-79 | passwords of spaces pass the guard |
| ManageShopPage.ConfirmationNotSent | frontend/src/pages/ManageShopPage.jsx:81 | the confirmation is not part of the update |
| ManageShopPage.Page.constructor | frontend/src/pages/ManageShopPage.jsx:31-35 | three empty password fields |
| ManageShopPage.Page.HandlePasswordChange | frontend/src/pages/ManageShopPage.jsx:58-61 | sets the one field |
| ManageShopPage.Page.HandleChangePassword | frontend/src/pages/ManageShopPage.jsx:69-83 | the alert for a missing field or a mismatch; otherwise one update with the user's id |
| DiscountPage.HasChangesIff | frontend/src/pages/DiscountPage.jsx:66-75 | changes exactly when something is loaded and one of the five fields strictly differs |
| DiscountPage.HasChanges | frontend/src/pages/DiscountPage.jsx:66-75 | a change needs something loaded and an edited field that differs |
| DiscountPage.NothingLoadedNoChanges | frontend/src/pages/DiscountPage.jsx:66-75 | nothing loaded, no changes |
| DiscountPage.FreshCopyHasNoChanges | frontend/src/pages/DiscountPage.jsx:45-53 | right after loading there are no changes |
| DiscountPage.EditMakesChange | frontend/src/pages/DiscountPage.jsx:58-75 | editing a field to a new value makes a change |
| DiscountPage.SaveDisabled | frontend/src/pages/DiscountPage.jsx:215 | an enabled save means not submitting and something loaded; nothing loaded disables it |
| DiscountPage.Page.constructor | frontend/src/pages/DiscountPage.jsx:28-40 | keeps the route id; blank local copy, nothing loaded, nothing saved or deleted |
| DiscountPage.Page.Loaded | frontend/src/pages/DiscountPage.jsx:42-56 | a falsy result changes nothing; otherwise both copies become it |
| DiscountPage.Page.HandleChange | frontend/src/pages/DiscountPage.jsx:58-64 | sets the one field of the local copy |
| DiscountPage.Page.HandleSubmit | frontend/src/pages/DiscountPage.jsx:77-95 | saves the local copy under the route id only with changes, and the flag is off afterwards |
| DiscountPage.Page.HandleDelete | frontend/src/pages/DiscountPage.jsx:97-109 | deletes the route id only after confirmation, and the flag is off afterwards |
| AddDiscountModal.ChangeReplacesOnlyField | frontend/src/components/AddDiscountModel.jsx:8-10 | a field's change replaces that field only |
| AddDiscountModal.SubmitGuard | frontend/src/components/AddDiscountModel.jsx:14-15 | an alert exactly for a null or empty id; otherwise a create with the stored id |
| AddDiscountModal.GetItem | frontend/src/components/AddDiscountModel.jsx:14 | a stored string exactly when the key is stored, and it is the stored value |
| AddDiscountModal.NoStoredIdNoCreate | frontend/src/components/AddDiscountModel.jsx:14-16 | without a stored `shop_id` no discount is ever created |
| AddDiscountModal.ResetFormDisablesSubmit | frontend/src/components/AddDiscountModel.jsx:88-95 | after the store resets, the button is disabled |
| AddDiscountModal.SubmitDisabled | frontend/src/components/AddDiscountModel.jsx:88-95 | an enabled button means not loading and the five fields truthy |
| AddDiscountModal.Modal.constructor | frontend/src/components/AddDiscountModel.jsx:5-6 | nothing called |
| AddDiscountModal.Modal.HandleSubmit | frontend/src/components/AddDiscountModel.jsx:12-17 | alerts without an id; otherwise one create with it |

## Where the code and the design differ

The model follows the code in each case below.

- **Password field.** The shop store posts `password`, but the backend
  asks for `password_hash`. Registration and shop updates therefore get a
  400 (`ShopStore.RegisterPayloadRefused`).
- **Duplicate email.** `createShop` answers a duplicate email with 500,
  so the store's 409 branch never applies to it
  (`ShopStore.DuplicateEmailShowsInternalError`). `updateShop` does send
  409.
- **Unknown shop id.** `getShop` never answers 404: an unknown id gives
  200 with undefined data.
- **Stored password.** `password_hash` is stored exactly as sent.
- **Login route.** `loginShop` posts to `/api/shops/login`, but the
  backend mounts login at `/api/auth/login`. It resolves with `true`, so
  the login page hands the context an undefined token and shop
  (`ShopLoginPage.StoreResultCarriesNothing`).
- **`shop_id` in storage.** No code writes `shop_id` to local storage,
  so the add-discount dialog always alerts
  (`AddDiscountModal.NoStoredIdNoCreate`,
  `AuthContext.StoredKeysOmitShopId`).
- **Discount route.** The discount store posts to
  `/api/discounts/addDiscount`, but the backend route is `POST /`. The
  `Outcome` parameter stands for whatever the server answers.
- **Logout field name.** Logout writes `shopName`, not `shop_name`, so
  the shop name stays in the form (`AuthContext.LogoutKeepsShopName`).
- **Strict id comparison.** `deleteShop` compares ids with `!==`. Deleting
  by a string id therefore removes nothing when the ids are numbers
  (`ShopStore.RemoveAbsentIdKeepsAll`).
- **Zero percentage.** A numeric 0 percentage falls to the falsy guard,
  though the schema allows it (`DiscountController.ZeroPercentageRejected`).
- **Shop routes.** The shop routes import controller names the controller
  file does not define. The model covers the handlers as the controller
  defines them.

## Left out

- SQL engine, bcrypt and JWT internals, and Arcjet's rules are abstract
  parameters: casts, `compare`, signing with a secret and expiry, and the
  protection decision.
- `ILIKE` patterns: text search is a case-insensitive substring test over
  lower-cased ASCII letters. It does not model `%`, `_`, quote or backslash
  in the search term, or Unicode case mapping.
- Query strings: a repeated key in the query string is not modelled; each
  filter is one optional string.
- Dates and times: clocks, time zones and date parsing are parameters. A
  day is a count of days since the epoch.
- Floating point: `parseFloat` and NaN are left to the `Conversions`
  parameter. The percentage is a real number.
- Regular expressions: the email regular expression is the `pattern`
  parameter.
- JavaScript object identity: reference equality between objects is
  modelled as equality of values.
- Non-string form fields count as blank.
- An error body that is not an object, or is null, makes the source's
  message expression throw. The model reads a missing message instead.
- A `null` success body, and null elements in the shops list during a
  delete (the source would throw).
- Spreading a string or an array into the form is not modelled.
- A missing `JWT_SECRET` is not modelled; the secret is a parameter.
- Rendering, toasts, navigation, dialogs, `setTimeout`, logging and
  concurrency between awaited calls are left out. Each method runs its
  awaited step as one outcome parameter.
- Local storage I/O is a map field of the auth context.
- DiscountStore.Store.FetchDiscounts: the filters argument
  (`URLSearchParams`) is not modelled; the outcome stands for the response.
- Store functions that do not exist: the pages call `registerShop`,
  `shopData`, `updateShopInfo`, `updateShopPassword`, `createDiscount`,
  `fetchDiscountsById`, `updateDiscount` and `deleteDiscount`, which the
  stores do not define. As written each such call throws a TypeError before
  anything is sent. Only the register page's as-written path is modelled
  (`ShopRegisterPage.Page.HandleSubmitAsWritten`); elsewhere the methods
  below model the page as though the function existed.
- ShopRegisterPage.Page.HandleSubmit: its success path needs `registerShop`,
  which does not exist.
- ManageShopPage.Page.HandleChangePassword: its update path needs
  `updateShopPassword`, which does not exist.
- DiscountPage.Page.Loaded, DiscountPage.Page.HandleSubmit and
  DiscountPage.Page.HandleDelete: they need `fetchDiscountsById`,
  `updateDiscount` and `deleteDiscount`, which do not exist.
- AddDiscountModal.Modal.HandleSubmit: its create path needs
  `createDiscount`, which does not exist.
- Strings are sequences of Unicode scalar values. Only the password length
  check counts UTF-16 code units (`Text.Utf16Length`); nothing else in the
  core depends on the encoding.
- ManageShopPage's `handleUpdateInfo` is not modelled, because it calls
  `updateShopInfo`, which the store does not define.
- Navigation after the password update is not modelled.
- HomePage, Navbar, UserMenu, ThemeSelector, InputField, the theme store
  and the route files are not part of this model.

## Findings

| source | as written | input that shows it | evidently intended | confidence | as-written member | corrected member |
|---|---|---|---|---|---|---|
| frontend/src/components/DiscountCard.jsx:36-39 | `isAfter(today, endDate)` compares instants, and the end date parses to its midnight | a discount ending today, viewed at noon of that day: the backend's `?date=today` lists it, but the card says Expired | the end date's whole day counts as active, as the backend's date filter has it | not executed | DiscountCard.EndDayShowsExpired | DiscountCard.ClassifyByDay, DiscountCard.ClassifyByDayMatchesTodayFilter |
| frontend/src/pages/ManageShopPage.jsx:53-56 | `handleChange` passes an updater function to `setFormData`, which spreads its argument into the form | a form with `city: "Oslo"`, typing `"Bergen"`: the function has no own fields, so the city stays `"Oslo"` | the typed value replaces the field | not executed | ManageShopPage.HandleChangeIgnored | ManageShopPage.CorrectedChangeUpdate, ManageShopPage.CorrectedChangeSetsField |
