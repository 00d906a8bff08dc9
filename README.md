# Session, guards and list stores of a React storefront admin

The application is a React front end. Customers log in or register against a
backend. Logged-in users browse products. Administrators manage products and
users. This project models, in Dafny, the parts of it that decide *who may do
what* and *what state results*:

- **The session** (`Auth`). `AuthProvider` owns four pieces of state:
  - the persisted "token" slot;
  - the persisted "user" slot;
  - the in-memory user;
  - the outbound `Authorization: Bearer <token>` header (section 2.1 of RFC 6750).

  `mapDecodedToUser` normalises decoded JWT claims (RFC 7519; `exp` is a
  NumericDate in seconds, section 4.1.4) into one user record. Startup
  recovery, `login`, `register` and `logout` are pure step functions on a
  `SessionState`. The class `Auth.AuthProvider` performs the same writes in
  the source's order and is proved to end in the state its step function
  describes.
- **Route guards** (`Guards`, `Routes`). `AdminRoute` reads the stored user;
  `PrivateRoute` reads the in-memory user. `App`'s route table says which
  guards wrap which class of paths.
- **List stores** (`UserContext`, `ProductContext`). These are classes whose
  `users`/`products` sequence and `loading`/`error` flags are updated in
  place. They rely on the sequence rewrites of `Lists`: append,
  replace-by-id, remove-by-id, set-role-by-id, find. The rewrites are proved
  against element-wise and membership specifications.
- **Views** (`UserForm`, `UsersView`, `ProductForm`, `ProductsView`). These
  model:
  - the `isAdmin` test;
  - the order of the mount guards;
  - the initial values an edit form loads;
  - the payloads the forms send;
  - the validation schemas;
  - the role-save rule;
  - the sanitised export rows.

Each network request, `jwtDecode`, the clock and the user's answers to
`confirm` are inputs:

- a request is a reply value (`Auth.AuthReply`, `Net.Reply`, `Net.FetchReply`);
- `jwtDecode` is a function parameter `string -> Option<JsVal>`, where `None`
  means it threw;
- the clock is `now` in milliseconds;
- each `confirm` answer is a boolean.

Alerts and navigation are outputs (`Ui.Effects`). JavaScript values are
`Js.JsVal`, which has its own `??`, truthiness, `===` and `Number(...)`.

Three behaviours of the code are worth knowing before reading the model:

- `PrivateRoute` redirects to `/login`, while every other redirect to the
  login page goes to `/inicio-sesion`.
- `AdminRoute` ignores the `rol` synonym that the views accept.
- A `jwtDecode` exception during login or register leaves the freshly stored
  token and the header in place. It does not roll them back.

## Model

| member | source | states |
|---|---|---|
| Js.Put | src/context/AuthContext.jsx:124 | Writing a property sets it and leaves the others alone; an undefined value leaves the key absent, as `JSON.stringify` drops it (the object literals at src/context/AuthContext.jsx:22-28 and 35-38 are built this way). |
| Js.ToNumber | src/layouts/users/UserForm.jsx:85 | `Number(v)` is a number or NaN. It keeps numbers. `undefined`, objects and NaN give NaN. `null`, `false`, `""` and `[]` give 0 and `true` gives 1. A string of decimal digits gives its decimal value; other strings give NaN. |
| Js.DigitsValueLeadingZero | src/layouts/users/UserForm.jsx:85 | Leading zeros do not change the value a digit string converts to. |
| Js.DigitsValueExamples | src/layouts/users/UserForm.jsx:85 | "30" converts to 30, and "0" and "" convert to 0. |
| Js.JsLength | src/layouts/users/UserForm.jsx:31 | `s.length` counts UTF-16 code units: between one and two per character, exactly one each outside the astral planes and two each inside them. |
| Js.JsLengthConcat | src/layouts/users/UserForm.jsx:31 | Lengths add over concatenation, so with the one-character cases the length of every string, mixed ones included, is fixed. |
| Js.MixedLength | src/layouts/users/UserForm.jsx:31 | Two letters followed by two emoji are six code units long. |
| Js.AstralCountsTwice | src/layouts/products/ProductForm.jsx:29 | One emoji has length 2, and three have length 6. |
| Storage.ReadStoredUser | src/utils/AdminRoute.jsx:5-11 | A missing, empty or unparseable "user" slot reads as `null`; a present slot reads as the value stored. The guard, the forms and the views all read it this way. |
| Storage.IsAdmin | src/layouts/users/UserForm.jsx:49 | Admin exactly when the stored user's `role` or `rol` equals "admin". That is only possible for an object. |
| Auth.UserRecord | src/context/AuthContext.jsx:110-111 | The record `{id,name,email,role}` is a truthy object with exactly those fields. |
| Auth.MapDecodedToUser | src/context/AuthContext.jsx:16-43 | A user is produced exactly when `exp` is truthy and not earlier than now, and the claims have the flat shape or a truthy `user`. No produced field is undefined. |
| Auth.FlatShapeFallbacks | src/context/AuthContext.jsx:21-28 | In the flat shape each field is the first defined value of: top-level field, synonym, nested field and its synonym, default (`null`/`""`/`"cliente"`). |
| Auth.NestedShapeFallbacks | src/context/AuthContext.jsx:32-40 | When the flat test fails and `user` is truthy, fields come from `user` with `name ?? nombre` and `role ?? rol ?? "cliente"`. |
| Auth.FlatAndNestedAgree | src/context/AuthContext.jsx:21-40 | Flat claims and the same fields nested under `user` normalise to the same record. |
| Auth.ExpiryInstantIsAccepted | src/context/AuthContext.jsx:18 | The expiry test is strict: `exp * 1000 == now` is still accepted. |
| Auth.MapServerUser | src/context/AuthContext.jsx:94-100 | A server user is mapped without any expiry check. `id` and `email` are copied; `name` and `role` fall back through their synonym to `""` and `"cliente"`. |
| Auth.Derive | src/context/AuthContext.jsx:93-101 | A truthy server user wins over the token. Otherwise the outcome is the decoded claims' mapping, or the decoder's exception. |
| Auth.Initial | src/context/AuthContext.jsx:46-49 | The first state keeps both slots as persisted, holds the user read from the "user" slot, and has no header. |
| Auth.Recovered | src/context/AuthContext.jsx:53-77 | Without a token, nothing changes. For a mappable token, both user copies become the mapped record and the header becomes `Bearer token`. A decoder throw or unusable claims clear everything. |
| Auth.RecoveryEstablishesInvariants | src/context/AuthContext.jsx:53-77 | From the initial header-less state, recovery leaves the header matching the stored token and the user matching its slot. |
| Auth.LoginStep | src/context/AuthContext.jsx:80-117 | Failures and missing tokens only alert. Success stores token, header and both user copies, then goes to "/". Unusable claims remove token and header but keep the users. A decoder throw keeps the new token and header. |
| Auth.RegisterPayload | src/context/AuthContext.jsx:123-124 | The payload copies every property. `nombre` takes `name` only when `name` is truthy and `nombre` is not. |
| Auth.RegisterStep | src/context/AuthContext.jsx:120-160 | Auto-login and "/productos" happen only for 201, a token and a mapped user. Other replies go to "/inicio-sesion". Without a mapped user the stored token and header remain. A decoder throw alerts twice and does not navigate. |
| Auth.LogoutStep | src/context/AuthContext.jsx:162-168 | Logout always yields the anonymous session (no slots, no header, null user) and goes to "/inicio-sesion". |
| Auth.LogoutIdempotent | src/context/AuthContext.jsx:162-168 | Logging out twice is logging out once. |
| Auth.HandlersPreserveInvariants | src/context/AuthContext.jsx:80-168 | Login, register and logout keep the header equal to `Bearer <stored token>` and the in-memory user equal to the stored one. |
| Auth.FailedLoginKeepsPreviousUser | src/context/AuthContext.jsx:103-107 | A login with unusable claims removes token and header, keeps the previous user in memory and in its slot, and does not navigate. |
| Auth.LoginReplacesSession | src/context/AuthContext.jsx:110-112 | A successful login determines the whole session whatever came before. |
| Auth.AuthProvider.constructor | src/context/AuthContext.jsx:46-49 | The provider starts in the initial state. |
| Auth.AuthProvider.RecoverSession | src/context/AuthContext.jsx:53-77 | The startup effect's writes end in the recovered state. |
| Auth.AuthProvider.Login | src/context/AuthContext.jsx:80-117 | The login handler's writes end in the login step's state and effects. |
| Auth.AuthProvider.Register | src/context/AuthContext.jsx:120-160 | The register handler posts the register payload. Its writes end in the register step's state and effects. |
| Auth.AuthProvider.Logout | src/context/AuthContext.jsx:162-168 | The logout handler's writes end in the anonymous session. |
| Guards.AdminRoute | src/utils/AdminRoute.jsx:5-24 | A missing or unparseable stored user goes to "/inicio-sesion". `role === "admin"` renders. Any other user goes to "/". |
| Guards.RolAloneIsRefusedByGuard | src/utils/AdminRoute.jsx:21-23 | A stored user whose only admin marker is `rol` is an admin for the views but is sent home by the guard. |
| Guards.AdminRouteReadsOnlyRole | src/utils/AdminRoute.jsx:15-23 | The decision depends only on the stored user's truthiness and its `role`, never on the token. |
| Guards.PrivateRoute | src/components/PrivateRoute.jsx:8 | A user renders exactly when truthy, whatever the role. Otherwise it redirects to "/login". |
| Routes.Resolve | src/App.jsx:44-66 | Nested layout routes render exactly when every guard allows. Otherwise the outcome is the decision of the outermost guard that refuses. |
| Routes.Navigate | src/App.jsx:33-70 | "/" is unguarded. Login and register pages sit behind `PublicRoute`, products behind `PrivateRoute`, users behind `PrivateRoute` and then `AdminRoute`. A refused page redirects where the outermost refusing guard says. Other paths redirect to "/" with replace. |
| Routes.UsersPagesNeedStoredAdmin | src/App.jsx:56-65 | The users pages render only for a stored user whose `role` is "admin". |
| Routes.FailedLoginKeepsAdminAccess | src/context/AuthContext.jsx:103-107 | After an admin session, a login with unusable claims leaves no token, and the admin guard still lets the users pages through. |
| Lists.ReplaceById | src/context/UserContext.jsx:62 | Exactly the elements with `id === id` become the returned record. Length and other elements are kept. |
| Lists.ReplaceByIdIdempotent | src/context/ProductContext.jsx:60 | Replacing twice with the same record is replacing once. |
| Lists.WithRole | src/context/UserContext.jsx:85 | `{...x, role}` sets the role and keeps every other field. |
| Lists.SetRoleById | src/context/UserContext.jsx:85 | Matching elements get the new role; the other elements are kept. |
| Lists.SetRoleByIdKeepsOtherFields | src/context/UserContext.jsx:85 | A role update keeps every other field, including the id it selects by. |
| Lists.RemoveById | src/context/UserContext.jsx:74 | The result never grows. It holds exactly the elements that do not match. |
| Lists.RemoveByIdConcat | src/context/ProductContext.jsx:72 | Removal distributes over concatenation, so the kept elements stay in order. |
| Lists.RemoveByIdSingle | src/context/ProductContext.jsx:72 | One element is dropped exactly when it matches. |
| Lists.RemoveByIdLength | src/context/UserContext.jsx:74 | The length falls by exactly the number of matching elements. |
| Lists.RemoveByIdWithoutMatch | src/context/UserContext.jsx:74 | Without a matching element the list is unchanged. |
| Lists.RemoveByIdIdempotent | src/context/UserContext.jsx:74 | Removing twice is removing once. |
| Lists.FindIndex | src/layouts/users/UserForm.jsx:79 | The index found is the first matching element; none means nothing matches. |
| Lists.FindById | src/layouts/products/ProductForm.jsx:86 | `find` returns the first matching element, and nothing exactly when no element matches. |
| Net.LoadRecord | src/layouts/users/UserForm.jsx:91-115 | 401 goes to "/inicio-sesion" and 403 to the list with its own alert. Other failures alert the not-found text and go to the list. A thrown request and an unreadable body alert their own error message, and a `null` body alerts the TypeError `data.name` raises; all three go to the list. Only a successful, readable, non-null body is loaded. |
| UserContext.RecordedError | src/context/UserContext.jsx:37 | The recorded error is the server's error when truthy, else the exception message; never nullish. |
| UserContext.UserProvider.constructor | src/context/UserContext.jsx:26-28 | The store starts empty, not loading, without error. |
| UserContext.UserProvider.GetUsers | src/context/UserContext.jsx:31-42 | An array reply replaces the list and any other reply empties it. A failure empties it and records the error. Loading ends false. |
| UserContext.UserProvider.AddUser | src/context/UserContext.jsx:45-55 | Success appends the returned record. A failure keeps the list and records the error. Loading ends false. |
| UserContext.UserProvider.EditUser | src/context/UserContext.jsx:58-68 | Success replaces the matching elements. A failure keeps the list and records the error. Loading ends false. |
| UserContext.UserProvider.DeleteUser | src/context/UserContext.jsx:71-78 | Success removes the matching elements. A failure keeps the list and records the error. Loading is never touched. |
| UserContext.UserProvider.UpdateUserRole | src/context/UserContext.jsx:81-93 | Success sets the reported `role ?? rol` on the matching elements and returns the data. A failure is rethrown and leaves the list. Loading ends false. |
| ProductContext.ProductProvider.constructor | src/context/ProductContext.jsx:25-27 | The store starts empty, not loading, without error. |
| ProductContext.ProductProvider.GetProducts | src/context/ProductContext.jsx:30-40 | An array reply replaces the list and any other reply empties it. A failure keeps the list and records `e.message`. Loading ends false. |
| ProductContext.ProductProvider.AddProduct | src/context/ProductContext.jsx:43-53 | Success appends the returned record. A failure is swallowed with the list kept. Loading ends false. |
| ProductContext.ProductProvider.EditProduct | src/context/ProductContext.jsx:56-66 | Success replaces the matching elements. A failure is swallowed with the list kept. Loading ends false. |
| ProductContext.ProductProvider.DeleteProduct | src/context/ProductContext.jsx:69-76 | Success removes the matching elements. A failure is swallowed with the list kept. Loading is never touched. |
| UserForm.ValuesFrom | src/layouts/users/UserForm.jsx:79-86 | Edit values are `name ?? nombre ?? ""`, `email ?? ""` and an empty password. `edad` is `Number(edad ?? 0)`: 0 when missing, kept when numeric. |
| UserForm.EditPayload | src/layouts/users/UserForm.jsx:126-131 | The edit payload carries `nombre`, `email` and `Number(edad)`, plus `password` only when one was typed. It never carries `contrasenia`. |
| UserForm.CreatePayload | src/layouts/users/UserForm.jsx:136-141 | The create payload always sends the typed `contrasenia` as `password`. |
| UserForm.PayloadsAgreeWithPassword | src/layouts/users/UserForm.jsx:126-141 | With a password typed, the edit and create payloads are the same object. |
| UserForm.ReloadShowsSaved | src/layouts/users/UserForm.jsx:79-86 | A record echoing an edit payload reloads as the saved values, with the password empty again. |
| UserForm.Errors | src/layouts/users/UserForm.jsx:25-38 | `nombre` and `email` are required, and the email must pass the email test. The password needs 6 characters, counted as UTF-16 code units, only when creating. `edad` must be a positive integer. |
| UserForm.EmojiPasswordMeetsMinimum | src/layouts/users/UserForm.jsx:31 | A three-emoji password meets the six-character minimum, as JavaScript counts it. |
| UserForm.LoadedValuesNeedOnlyNameAndEmail | src/layouts/users/UserForm.jsx:25-38 | Edit values from a record with a positive integer age can fail only on name or email. |
| UserForm.EditValuesFailCreateRules | src/layouts/users/UserForm.jsx:28-32 | Checked with the create rules, edit values always fail the password rule. |
| Ui.ScreenFor | src/layouts/users/UserForm.jsx:152-164 | A non-admin gets the blocking view of either edit form (the product form's is at src/layouts/products/ProductForm.jsx:122-134), an admin the form. |
| UserForm.UserFormView.constructor | src/layouts/users/UserForm.jsx:48-61 | The form starts with empty values and the stored user read once. |
| UserForm.UserFormView.LoadEffect | src/layouts/users/UserForm.jsx:63-117 | Checks run in order: no token, then not admin, then create mode. In edit mode values come from the first store user with `id === Number(id)`, else from the backend record. |
| UserForm.UserFormView.Submit | src/layouts/users/UserForm.jsx:120-149 | A non-admin never reaches the store. Otherwise the edit or create payload goes to the store once, the list and the recorded error change as the store's operation says, and the form returns to "/usuarios". |
| UsersView.Mount | src/layouts/users/UsersView.jsx:32-42 | Without a token the view goes to "/inicio-sesion" and requests nothing. Otherwise it loads the list; a failed load empties it and records the error. |
| UsersView.RoleToSend | src/layouts/users/UsersView.jsx:47-49 | The role sent is `_newRole ?? current`, and nothing is sent exactly when that `===` the current `role ?? rol`. |
| UsersView.UntouchedRowHasNoChange | src/layouts/users/UsersView.jsx:47-49 | A row whose select was never changed has nothing to save. |
| UsersView.NewStringRoleIsSent | src/layouts/users/UsersView.jsx:47-52 | Choosing a role string different from the current one sends it. |
| UsersView.SaveRole | src/layouts/users/UsersView.jsx:45-57 | A non-admin or an unchanged role makes no call. Otherwise the role update runs once, its rethrow picks the closing alert, and a failure records the error and keeps the list. |
| UsersView.DeleteRow | src/layouts/users/UsersView.jsx:104-107 | A declined confirmation sends nothing. Otherwise the store deletes or records the error, and the button's own alert never shows because the store swallows failures. |
| UsersView.Sanitize | src/layouts/users/UsersView.jsx:62-67 | An export row has exactly `nombre`, `email`, `rol` and `edad`, each with its fallbacks. |
| UsersView.SanitizeAll | src/layouts/users/UsersView.jsx:62-67 | Sanitising keeps length and order. |
| UsersView.ExportRows | src/layouts/users/UsersView.jsx:60-69 | A non-array exports nothing; otherwise there is one sanitised row per user, in order. |
| UsersView.ExportIgnoresPassword | src/layouts/users/UsersView.jsx:59-67 | Exported rows never depend on a password field. |
| UsersView.RoleBody | src/layouts/users/UsersView.jsx:72-86 | The role shown is `role ?? rol ?? "cliente"`, as text for others and as a select with exactly cliente/moderador/admin for an admin. |
| UsersView.ActionsBody | src/layouts/users/UsersView.jsx:89-117 | Only an admin gets the edit, delete and save-role actions, keyed by the row's id. |
| ProductForm.ValuesFrom | src/layouts/products/ProductForm.jsx:86-91 | Edit values are `name ?? nombre ?? ""` and `price ?? precio ?? 0`, neither nullish. |
| ProductForm.Payload | src/layouts/products/ProductForm.jsx:57 | The payload is exactly `{name: nombre, price: Number(precio)}`. |
| ProductForm.ReloadShowsSaved | src/layouts/products/ProductForm.jsx:57-91 | A record echoing the payload reloads as the saved values, the price as a number. |
| ProductForm.Trim | src/layouts/products/ProductForm.jsx:28 | The trimmed name is the name with leading and trailing blanks removed and nothing else: a slice of it, blanks only outside, no blank at either end. |
| ProductForm.TrimKeepsInnerText | src/layouts/products/ProductForm.jsx:28 | A name without blanks at its ends is unchanged by trimming. |
| ProductForm.Errors | src/layouts/products/ProductForm.jsx:26-35 | The name needs two characters, counted as UTF-16 code units, once trimmed. The price must be a number above 0. |
| ProductForm.EmojiNameMeetsMinimum | src/layouts/products/ProductForm.jsx:27-30 | A one-emoji name meets the two-character minimum, as JavaScript counts it. |
| ProductForm.EmptyFormIsRejected | src/layouts/products/ProductForm.jsx:26-35 | The empty form fails on both fields. |
| ProductForm.DefaultsAreRejected | src/layouts/products/ProductForm.jsx:86-91 | A record with neither name nor price loads values that fail on both fields. |
| ProductForm.ProductFormView.constructor | src/layouts/products/ProductForm.jsx:47-51 | The form starts with empty values and the stored user read once. |
| ProductForm.ProductFormView.LoadEffect | src/layouts/products/ProductForm.jsx:74-119 | Only a missing token stops the effect; there is no admin check. In edit mode values come from the first store product with a matching id, else from the backend record. |
| ProductForm.ProductFormView.Submit | src/layouts/products/ProductForm.jsx:54-71 | A non-admin never reaches the store. Otherwise `editProduct(Number(id), …)` or `addProduct` runs once, a failure records its message, and the form returns to "/productos". |
| ProductsView.Mount | src/layouts/products/ProductsView.jsx:34-46 | Without a token the view goes to "/inicio-sesion". Otherwise products are requested only when the store holds none; a failed request records its message. |
| ProductsView.OnDelete | src/layouts/products/ProductsView.jsx:49-58 | A non-admin or a declined confirmation makes no call. A confirmed delete removes the matching products and leaves the error, or keeps them and records the message; either way it ends with the success alert, because the store swallows failures. |
| ProductsView.Normalize | src/layouts/products/ProductsView.jsx:64-67 | An export row has exactly `nombre: name ?? nombre ?? ""` and `precio: price ?? precio ?? ""`. |
| ProductsView.NormalizeAll | src/layouts/products/ProductsView.jsx:64-67 | Normalising keeps length and order. |
| ProductsView.ExportRows | src/layouts/products/ProductsView.jsx:61-69 | A non-array exports nothing; otherwise there is one normalised row per product, in order. |
| ProductsView.EnglishKeysWin | src/layouts/products/ProductsView.jsx:65-66 | When both are present, `name` and `price` win over `nombre` and `precio`. |
| ProductsView.ActionsBody | src/layouts/products/ProductsView.jsx:72-91 | Only an admin gets the edit link and the delete button, keyed by the row's id. |

## Left out

- Rendering, PrimeReact, Formik wiring and react-router's matching: navigation is an output value. Path matching is exact or by prefix. Case-insensitive paths and trailing slashes are not modelled.
- `PublicRoute`, the `PrivateRoute` of `utils/` that `App` imports, and `Home` are not part of this model. `Routes.Navigate` takes their decisions as parameters.
- `Guards.PrivateRoute`: the component reads the user through `useAuth`, which the session module does not export. The model gives it the in-memory user directly.
- Network I/O, `jwtDecode`, `Date.now()`, `alert`, `confirm`, `console.error`: requests are reply values, the decoder is a parameter, the clock is `now`, and `confirm` is a boolean.
- `exportToPDF` is not part of this model; only the rows handed to it are modelled.
- `formatPrice` and the price column: `toLocaleString` and floating point.
- Asynchronous interleavings: every handler runs atomically.
- Js.ToNumber: only the empty string and strings of decimal digits convert to numbers; every other string is NaN. Whitespace, signs, decimals, exponents and hexadecimal are not modelled. Non-empty arrays are NaN even when JavaScript would convert a one-element array.
- Js.StrictEq: objects and arrays never compare equal, since reference identity is not modelled.
- Reading a property of `null`: `Js.Get` yields undefined where JavaScript throws. This matters for `null` elements of a list or an export, and for a role update whose reply body is JSON `null`: `data.role ?? data.rol` throws a TypeError inside the `setUsers` updater, while `UserContext.ReportedRole` yields undefined and the matching users get an undefined role. The edit forms' `data.name` on a JSON `null` body is modelled as the TypeError it raises.
- Non-string tokens and messages: the session reads tokens and server messages as strings.
- Auth.AuthReply: axios rejects non-2xx statuses, so a `Replied` with such a status stands for a validateStatus that accepts them.
- Auth.UserRecord: an undefined field is absent from the record; the in-memory object would hold it as undefined. `Js.Get` reads both alike.
- UserForm.Errors: the email format test is the parameter `isEmail`. A non-string field counts as invalid, whereas Yup would cast it. The password rule depends on the `isEdit` flag as the schema sees it. Whether Formik forwards the `context` prop to Yup is outside the model; if it does not, `UserForm.EditValuesFailCreateRules` says that edits without a password cannot be submitted.
- ProductForm.Trim: only space, tab, newline and carriage return are trimmed, not the rest of Unicode white space.
- ProductForm.Errors: Yup's casting of prices is approximated by `Js.ToNumber`. A non-string name (say the number 42 from the backend) counts as invalid, whereas Yup would cast it to a string first and accept "42".
- UsersView.SaveRole: the select writes into `row._newRole` in place. The model takes that value as the input `chosen`.
- UserForm.UserFormView.Submit and ProductForm.ProductFormView.Submit: the catch branch ("No autorizado o error al guardar") is unreachable, because the stores swallow add and edit failures. The model has no such branch.
- The stores' own mount effects, which call `getUsers` or `getProducts` once, are calls of `GetUsers` or `GetProducts` on the constructed store.
- The login and register forms, the navigation bar and the `index.jsx` route files only render and delegate.
