# Tuition coupon client — a Dafny model

A model of the decision logic of a React client for a university tuition
system. Students pick pending installments (cuotas), choose a payment
gateway (pasarela) and generate a payment coupon (cupón); they also browse
their coupon history. Administrators list every coupon, filter the list,
change a coupon's status, void (anular) coupons, read the audit log and
maintain the coupon-status catalogue.

The model keeps each page's state as a class whose methods are the page's
event handlers, run to completion. A network call becomes an `Outcome`
parameter (`Ok(value)` or `Fail(message)`), and a handler returns the
request it sent and whether it asked for a reload. What a page derives from
its state (filtered lists, totals, badges, routes) is pure functions, and
the lemmas state what those derivations guarantee.

Modules:

- `Text`: the JavaScript string operations the pages use.
  - `||` fallbacks on possibly missing strings.
  - `trim` with the ECMAScript whitespace set.
  - `toLowerCase`/`toUpperCase`.
  - `includes`/`startsWith`.
- `Seqs`: `Array.prototype.filter`, order-preserving subsequences and duplicate-free sequences.
- `Entities`: the records received from the server.
- `MisPagos`: the student payments page.
- `HistorialCupones`: the coupon table shared by the history and the administration list.
- `AdminGestion`: the administration list.
- `AdminLogs`: the audit log.
- `PillNav`: the navigation bar.
- `App`: the session check, the redirects and the route table.
- `ResetPassword`: the password reset page.
- `AnularCuponModal`: the void dialog.
- `CatalogModal`: the status and gateway dialogs, which differ only in their texts.
- `Configuracion`: the catalogue page.

## Model

| member | source | states |
|---|---|---|
| Text.BlankIff | src/components/AnularCuponModal.js:31 | a text trims to empty exactly when every character is ECMAScript whitespace |
| Text.LowerTrimCommute | src/pages/AdminLogsPage.js:52 | trimming then lower-casing equals lower-casing then trimming, so the log page and the coupon page normalise a search term alike |
| Text.ContainsIff | src/pages/AdminGestionPage.js:79-81 | `includes` holds exactly when the term occurs at some index of the text |
| MisPagos.ToggleMembership | src/pages/MisPagosPage.js:60-66 | a click flips whether the clicked id is selected and leaves every other id's membership as it was |
| MisPagos.ToggleKeepsOthers | src/pages/MisPagosPage.js:60-66 | the other selected ids keep their relative order |
| MisPagos.ToggleNoDup | src/pages/MisPagosPage.js:60-66 | a selection without repeated ids stays without repeats |
| MisPagos.TogglesNoDup | src/pages/MisPagosPage.js:60-66 | any sequence of clicks from a duplicate-free selection gives a duplicate-free selection |
| MisPagos.ToggleTwiceAbsent | src/pages/MisPagosPage.js:60-66 | clicking an unselected installment appends it, and a second click restores the selection exactly |
| MisPagos.ToggleTwicePresent | src/pages/MisPagosPage.js:60-66 | clicking a selected installment twice keeps the same ids but moves it to the end |
| MisPagos.TotalCons | src/pages/MisPagosPage.js:97-99 | each installment adds its amount to the total exactly when its id is selected |
| MisPagos.TotalEmptySelection | src/pages/MisPagosPage.js:97-99 | with nothing selected the total is 0 |
| MisPagos.TotalCongruent | src/pages/MisPagosPage.js:97-99 | the total depends only on which loaded installments are selected, not on selection order or unknown ids |
| MisPagos.TotalIgnoresUnknownId | src/pages/MisPagosPage.js:97-99 | selecting an id no loaded installment has leaves the total unchanged |
| MisPagos.TotalAfterToggle | src/pages/MisPagosPage.js:97-99 | with unique ids, a click adds the installment's amount when it was unselected and subtracts it when it was selected |
| MisPagos.TotalBounds | src/pages/MisPagosPage.js:97-99 | with non-negative amounts the total lies between 0 and the sum of all installments |
| MisPagos.GenerationAlert | src/pages/MisPagosPage.js:85-90 | a failure whose message mentions 409 becomes the conflict warning (warning alert); a failure without a message becomes the generic error (danger alert) |
| MisPagos.DangerUnlessA | src/pages/MisPagosPage.js:195 | an error text not starting with the letter A is shown as a danger alert |
| MisPagos.ApiErrorAlert | src/services/cuponesApi.js:72-76 | for an `Error <status>: <detail>` message the alert is a warning exactly when the message contains 409, anywhere in it; otherwise the message itself is shown |
| MisPagos.ConflictStatusWarns | src/pages/MisPagosPage.js:86-87 | a 409 response is always reported as the conflict warning |
| MisPagos.CuotaBadge | src/pages/MisPagosPage.js:104-110 | the installment badge shows the status name, danger for "Vencida", warning with dark text for "Pendiente" |
| MisPagos.MisPagosPage.constructor | src/pages/MisPagosPage.js:13-23 | the page starts loading, with an empty, duplicate-free selection, no gateway and no error |
| MisPagos.MisPagosPage.FetchCuotas | src/pages/MisPagosPage.js:26-37 | a success replaces the installments; a failure keeps them and sets the message or the default text; loading ends either way |
| MisPagos.MisPagosPage.SelectCuota | src/pages/MisPagosPage.js:60-66 | the selection becomes the toggled selection and stays duplicate-free |
| MisPagos.MisPagosPage.SelectPasarela | src/pages/MisPagosPage.js:182 | the gateway changes only while some installment is selected |
| MisPagos.MisPagosPage.GenerarCupon | src/pages/MisPagosPage.js:68-94 | disabled or busy: nothing is sent or changed; otherwise the selection and key are sent; success stores the coupon, clears the selection and gateway and reloads; failure keeps them and stores the classified error |
| MisPagos.MisPagosPage.DismissGenerationError | src/pages/MisPagosPage.js:195 | closing the alert clears the generation error |
| MisPagos.MisPagosPage.CloseSuccessModal | src/pages/MisPagosPage.js:198-204 | closing the success modal forgets the generated coupon |
| MisPagos.MisPagosPage.FetchHistorial | src/pages/MisPagosPage.js:40-51 | a success replaces the history; a failure keeps it with the message or the default text |
| MisPagos.MisPagosPage.OnSelectTab | src/pages/MisPagosPage.js:121-125 | the history is fetched exactly when the coupons tab is chosen while the history is empty and not loading |
| HistorialCupones.EstadoCuponBadge | src/components/HistorialCuponesTabla.js:5-13 | each known status gets its own colour; any other status a light badge with dark text; the caption is the name, "Desconocido" only when it is missing or empty |
| HistorialCupones.StudentColumnsOf | src/components/HistorialCuponesTabla.js:45-51 | name falls back from full name to user name to "N/A"; DNI and legajo to "N/A"; no column is empty |
| HistorialCupones.PdfButtonFor | src/components/HistorialCuponesTabla.js:89-104 | a download link to the document exactly when the coupon has a non-empty URL |
| HistorialCupones.RenderRow | src/components/HistorialCuponesTabla.js:42-119 | the administrator's row has student columns, a status selector and a void button; the student's row has the status badge only; the gateway cell is never empty |
| HistorialCupones.RenderTable | src/components/HistorialCuponesTabla.js:16-19 | nothing is rendered for a missing or empty list; otherwise one row per coupon in order |
| HistorialCupones.AnularButtonRule | src/components/HistorialCuponesTabla.js:105-118 | in the administrator's view the void button is disabled exactly for voided or paid coupons |
| AdminGestion.FilterCuponesIsFilter | src/pages/AdminGestionPage.js:64-86 | the status filter followed by the search is one filter with a per-coupon predicate |
| AdminGestion.FilteredIsOrderedSubset | src/pages/AdminGestionPage.js:64-86 | the list shown is the loaded coupons passing both filters, in their original order, and every passing coupon is shown |
| AdminGestion.StatusFilterExact | src/pages/AdminGestionPage.js:68-72 | with a status chosen, every coupon shown has a status of exactly that name |
| AdminGestion.SearchSemantics | src/pages/AdminGestionPage.js:73-84 | with a non-blank term, a coupon is shown exactly when the lower-cased term occurs in its student's name, DNI or legajo |
| AdminGestion.EmptyFiltersKeepAll | src/pages/AdminGestionPage.js:64-86 | a whitespace-only term and no status show every loaded coupon |
| AdminGestion.FilterCuponesIdempotent | src/pages/AdminGestionPage.js:64-86 | filtering the shown list again changes nothing |
| AdminGestion.FindCupon | src/pages/AdminGestionPage.js:116 | returns the first loaded coupon with the id, and nothing exactly when no coupon has it |
| AdminGestion.FindOption | src/pages/AdminGestionPage.js:126 | returns the first status option with the id, and nothing exactly when no option has it |
| AdminGestion.OnlyTargetChanges | src/pages/AdminGestionPage.js:123-129 | with unique ids the status update changes only that coupon, and only its status |
| AdminGestion.ReplaceAbsentNoop | src/pages/AdminGestionPage.js:123-129 | an update for an id that is not loaded leaves the list unchanged |
| AdminGestion.AdminGestionPage.constructor | src/pages/AdminGestionPage.js:28-40 | the page starts loading with no filters and the void dialog closed |
| AdminGestion.AdminGestionPage.FetchAdminCupones | src/pages/AdminGestionPage.js:43-57 | a success replaces coupons, statistics and status options; a failure keeps them with the message or the default text |
| AdminGestion.AdminGestionPage.SetSearchTerm | src/pages/AdminGestionPage.js:175 | the search term becomes the typed value |
| AdminGestion.AdminGestionPage.SetEstadoFilter | src/pages/AdminGestionPage.js:179 | the status filter becomes the chosen value |
| AdminGestion.AdminGestionPage.ClearFilters | src/pages/AdminGestionPage.js:188 | both filters are cleared and the table shows every loaded coupon |
| AdminGestion.AdminGestionPage.OpenAnularModal | src/pages/AdminGestionPage.js:89-93 | the dialog opens for that coupon with no error |
| AdminGestion.AdminGestionPage.CloseAnularModal | src/pages/AdminGestionPage.js:94-98 | the dialog closes and forgets the coupon and the error |
| AdminGestion.AdminGestionPage.ConfirmAnular | src/pages/AdminGestionPage.js:99-112 | without a coupon or with an empty reason nothing happens; otherwise the void is sent; success closes the dialog and reloads; failure keeps it open with the message or the default text |
| AdminGestion.AdminGestionPage.EstadoChange | src/pages/AdminGestionPage.js:115-134 | choosing the current status (or a coupon that is missing or has no status) sends nothing; otherwise the change is sent; success replaces that coupon's status in place; failure reloads |
| AdminLogs.ComputeStats | src/pages/AdminLogsPage.js:37-43 | total is the number of entries; successes and failures are each between 0 and the total |
| AdminLogs.StatsAdditive | src/pages/AdminLogsPage.js:37-43 | the counters of two lists put together are the sums of their counters |
| AdminLogs.StatsSingleton | src/pages/AdminLogsPage.js:37-43 | one entry counts 1 in the total, 1 in the successes exactly when its lower-cased action mentions generar or login, 1 in the failures exactly when it mentions fallo |
| AdminLogs.StatsCons | src/pages/AdminLogsPage.js:37-43 | adding an entry in front raises the total by 1 and each counter by 1 exactly when the entry qualifies, so the counters are the numbers of qualifying entries |
| AdminLogs.StatsExtremes | src/pages/AdminLogsPage.js:37-43 | counters are 0 when no entry qualifies and equal the total when every entry does |
| AdminLogs.GenerarCuponIsExito | src/pages/AdminLogsPage.js:40-41 | a coupon generation is counted as a success only |
| AdminLogs.FalloCuponIsFallo | src/pages/AdminLogsPage.js:40-41 | a failed generation is counted as a failure only |
| AdminLogs.CuponAnuladoUncounted | src/pages/AdminLogsPage.js:40-41 | a voided coupon is counted as neither |
| AdminLogs.FalloLoginCountedTwice | src/pages/AdminLogsPage.js:40-41 | a failed login is counted as a success and as a failure at once |
| AdminLogs.FilterLogsIsFilter | src/pages/AdminLogsPage.js:50-67 | the action filter followed by the search is one filter with a per-entry predicate |
| AdminLogs.FilteredIsOrderedSubset | src/pages/AdminLogsPage.js:50-67 | the entries shown are the loaded entries passing both filters, in order, and every passing entry is shown |
| AdminLogs.ActionFilterExact | src/pages/AdminLogsPage.js:54-56 | with an action chosen, every entry shown has exactly that action |
| AdminLogs.SearchSemantics | src/pages/AdminLogsPage.js:58-63 | with a non-blank term, an entry is shown exactly when the term occurs, ignoring case, in its detail or in its user when present |
| AdminLogs.EmptyFiltersKeepAll | src/pages/AdminLogsPage.js:50-67 | a whitespace-only term and no action show every entry |
| AdminLogs.FilterLogsIdempotent | src/pages/AdminLogsPage.js:50-67 | filtering the shown entries again changes nothing |
| AdminLogs.AdminLogsPage.constructor | src/pages/AdminLogsPage.js:7-20 | the page starts loading with zero counters, which describe the empty list |
| AdminLogs.AdminLogsPage.FetchLogs | src/pages/AdminLogsPage.js:22-35 | a success replaces the entries and recomputes the counters; a failure keeps both with the message or the default text; the counters always describe the entries |
| AdminLogs.AdminLogsPage.SetSearchTerm | src/pages/AdminLogsPage.js:126 | the search term becomes the typed value |
| AdminLogs.AdminLogsPage.SetActionFilter | src/pages/AdminLogsPage.js:135 | the action filter becomes the chosen value |
| AdminLogs.AdminLogsPage.ClearFilters | src/pages/AdminLogsPage.js:149-152 | both filters are cleared and every entry is shown |
| PillNav.RenderPill | src/components/PillNav.js:203-220 | a router link exactly for a non-empty internal path; active exactly when the item's target equals the current one, also when both are missing |
| PillNav.RenderPills | src/components/PillNav.js:199-224 | one pill per item, in order |
| PillNav.AtMostOneActive | src/components/PillNav.js:206 | with distinct targets at most one pill is active |
| PillNav.ResolvedPillTextColor | src/components/PillNav.js:23 | the text colour is the given one when present, even empty, and the base colour otherwise |
| PillNav.NullishKeepsEmpty | src/components/PillNav.js:23 | with a non-empty base colour, the nullish fallback differs from an `||` fallback exactly for an empty colour |
| PillNav.Substring2 | src/components/PillNav.js:174 | the first two characters, or the whole text when shorter |
| PillNav.Initials | src/components/PillNav.js:174 | one or two characters; the name's first two upper-cased, or "US" without a name; never a letter the model's case mapping counts as lower-case |
| PillNav.BeforeSpace | src/components/PillNav.js:175 | the longest space-free prefix; shorter than the text exactly when the text has a space, which then follows it |
| PillNav.FirstName | src/components/PillNav.js:175 | the text before the first space, or "Usuario" without a name |
| PillNav.FirstNameShape | src/components/PillNav.js:175 | a name without spaces is its own first name; otherwise the name starts with the first name and a space |
| PillNav.RenderUserCorner | src/components/PillNav.js:229-259 | a sign-in link exactly when no user is given; otherwise initials, first name and role |
| PillNav.MobileEntries | src/components/PillNav.js:270-286 | every item as a link, in order, then a logout entry exactly when a user is signed in |
| PillNav.NavMenus.constructor | src/components/PillNav.js:24-25 | both menus start closed |
| PillNav.NavMenus.ToggleMobileMenu | src/components/PillNav.js:143-168 | the mobile menu flips and the optional callback is called when given |
| PillNav.NavMenus.CloseMobileMenu | src/components/PillNav.js:275 | a link in the mobile menu closes it |
| PillNav.NavMenus.ToggleUserMenu | src/components/PillNav.js:232 | the user pill flips the dropdown |
| PillNav.NavMenus.CloseUserMenu | src/components/PillNav.js:242-251 | the backdrop and the profile link close the dropdown |
| App.RedirectsLandOnPage | src/App.js:87-161 | every redirect of the route table lands on a location that shows a page |
| App.RoleGating | src/App.js:87-161 | administration pages only for administrators, payments only for students, and only the sign-in page (directly or by redirect) without a session |
| App.HomeShowsRolePage | src/App.js:143-147 | a signed-in user's home shows the page of their role |
| App.CheckAuthResult | src/App.js:19-46 | signed in exactly for a stored entry with a decodable access token, as administrator exactly when its staff claim holds; every other present entry is removed |
| App.CheckAuthStable | src/App.js:19-46 | checking the session again after a check gives the same result |
| App.LoginSuccessAction | src/App.js:50-67 | navigate to the role's home exactly for a decodable token; sign out for unreadable JSON or an undecodable token; otherwise do nothing |
| App.LoginLandsOnRolePage | src/App.js:50-67 | after the navigation reloads the application, the route table shows the role's page directly |
| App.AuthSession.constructor | src/App.js:13-16 | the application starts verifying, signed out |
| App.AuthSession.CheckAuth | src/App.js:19-46 | the flags and the stored entry become the decision of the check, and the session is consistent |
| App.AuthSession.Logout | src/App.js:69-74 | the entry is removed, both flags drop and the browser goes to the sign-in page, which then shows |
| App.AuthSession.LoginSuccess | src/App.js:50-67 | performs the navigation, the sign-out or nothing, as the sign-in decision says |
| ResetPassword.ValidationError | src/pages/ResetPasswordPage.js:23-30 | missing-fields error when either is empty; mismatch error when both are filled but differ; no error exactly when both are equal and non-empty |
| ResetPassword.Shown | src/pages/ResetPasswordPage.js:65-66 | an error or message renders exactly when it is non-empty |
| ResetPassword.RenderPage | src/pages/ResetPasswordPage.js:43-67 | the invalid-link notice exactly when the uid or token is missing or empty; otherwise the form, disabled and relabelled while loading |
| ResetPassword.ResetPasswordPage.constructor | src/pages/ResetPasswordPage.js:9-16 | the page keeps the link parameters and starts with empty fields |
| ResetPassword.ResetPasswordPage.SetPassword | src/pages/ResetPasswordPage.js:53 | the first field becomes the typed value |
| ResetPassword.ResetPasswordPage.SetPassword2 | src/pages/ResetPasswordPage.js:60 | the second field becomes the typed value |
| ResetPassword.ResetPasswordPage.Submit | src/pages/ResetPasswordPage.js:18-41 | a rejected input shows its error and sends nothing; otherwise uid, token and password are sent, then the server's message or the error's message shows |
| AnularCuponModal.AcceptedReasonNonEmpty | src/components/AnularCuponModal.js:31 | a reason that is not blank is non-empty, so it passes the page's own guard |
| AnularCuponModal.AnularCuponModal.constructor | src/components/AnularCuponModal.js:15-16 | the dialog starts with no reason and no validation |
| AnularCuponModal.AnularCuponModal.OnShowChange | src/components/AnularCuponModal.js:19-24 | hiding forgets the reason and the validation; showing keeps them |
| AnularCuponModal.AnularCuponModal.SetMotivo | src/components/AnularCuponModal.js:59 | the reason becomes the typed value |
| AnularCuponModal.AnularCuponModal.Submit | src/components/AnularCuponModal.js:26-37 | a blank reason turns the validation on and confirms nothing; otherwise the untrimmed, non-empty reason is confirmed |
| AnularCuponModal.AnularCuponModal.IsInvalid | src/components/AnularCuponModal.js:62 | the field is flagged exactly after a rejected submission while the reason is all whitespace |
| AnularCuponModal.AnularCuponModal.View | src/components/AnularCuponModal.js:50-81 | the alert exactly for a non-empty error; both buttons disabled exactly while voiding |
| CatalogModal.HeaderTitle | src/components/EstadoCuponModal.js:47-53 | the header starts with the verb of the mode, "Editar" when editing and "Añadir" when creating (PasarelaPagoModal.js has the same shape with its own texts) |
| CatalogModal.HeadersDistinct | src/components/EstadoCuponModal.js:47-53 | the four headers are pairwise different, so each names its catalogue and its mode |
| CatalogModal.Prefill | src/components/EstadoCuponModal.js:18-28 | an edit dialog opens with the item's name and description ("" when missing); a create dialog opens empty |
| CatalogModal.PrefillSubmittable | src/components/EstadoCuponModal.js:18-40 | a freshly opened create dialog is rejected on submit; an edit dialog for an item with a non-blank name is accepted |
| CatalogModal.NameDescriptionModal.constructor | src/components/EstadoCuponModal.js:12-14 | the dialog starts empty and not validated |
| CatalogModal.NameDescriptionModal.Sync | src/components/EstadoCuponModal.js:18-28 | the form holds the prefill and the validation is off |
| CatalogModal.NameDescriptionModal.SetNombre | src/components/EstadoCuponModal.js:65 | the name becomes the typed value |
| CatalogModal.NameDescriptionModal.SetDescripcion | src/components/EstadoCuponModal.js:81 | the description becomes the typed value |
| CatalogModal.NameDescriptionModal.Submit | src/components/EstadoCuponModal.js:30-40 | a blank name turns the validation on and hands nothing over; otherwise both texts, untrimmed, go to the page |
| CatalogModal.NameDescriptionModal.NameInvalid | src/components/EstadoCuponModal.js:67 | the name is flagged exactly after a rejected submission while it is all whitespace |
| Configuracion.SaveRequestFor | src/pages/ConfiguracionPage.js:74-78 | an update of the item's id exactly when an item with a present, non-zero id is being edited; otherwise a create; the form data go unchanged |
| Configuracion.ConfiguracionPage.constructor | src/pages/ConfiguracionPage.js:14-26 | the page starts loading with both dialogs closed and nothing selected |
| Configuracion.ConfiguracionPage.FetchEstadosCupon | src/pages/ConfiguracionPage.js:29-40 | a success replaces the catalogue; a failure keeps it with the message or the default text |
| Configuracion.ConfiguracionPage.CloseModals | src/pages/ConfiguracionPage.js:47-55 | both dialogs close, selections and error are forgotten, nothing is in progress |
| Configuracion.ConfiguracionPage.OpenCreate | src/pages/ConfiguracionPage.js:57-61 | the edit dialog opens with no item and no error |
| Configuracion.ConfiguracionPage.OpenEdit | src/pages/ConfiguracionPage.js:63-67 | the edit dialog opens with that item and no error |
| Configuracion.ConfiguracionPage.Save | src/pages/ConfiguracionPage.js:70-89 | sends the update or create; success closes everything and reloads; failure keeps the dialog with the message or the default text; the spinner ends either way |
| Configuracion.ConfiguracionPage.OpenDelete | src/pages/ConfiguracionPage.js:92-96 | the delete dialog opens for that id with no error |
| Configuracion.ConfiguracionPage.ConfirmDelete | src/pages/ConfiguracionPage.js:99-115 | sends the deletion of the selected id, even when none is selected; success closes everything and reloads; failure keeps the dialog with the message or the default text |

## Left out

- Network services (`cuponesApi.js`, `authApi.js`, `logsApi.js`) are not part of this model. Each handler receives the outcome of its call as a parameter.
  - The one exception is the shape of the coupon-generation error message, in `MisPagos.ApiErrorAlert`.
- Concurrency is not modelled. Each asynchronous handler runs to completion before the next event.
  - Interleavings are left out: a second click while a request is pending, or a reload racing an optimistic update.
- `localStorage`, `window.location` and the router are state fields and return values.
  - The browser's full-page reload is only reflected by `App.LoginLandsOnRolePage`, which runs the session check on the same stored entry.
- The route table compares paths as exact strings. The router's case-insensitive matching and trailing-slash tolerance are left out.
- `App.CheckAuthResult`: `is_staff` is modelled as a boolean. A non-boolean truthy claim is not represented.
  - A stored empty string is treated as no entry, as `getItem` returns a falsy value for it.
- The idempotency key comes from `uuidv4`. It is a parameter, and its freshness is not modelled.
- Amounts are integers. `parseFloat` of textual amounts, floating point and the `es-AR` currency formatting are left out.
- Dates (generation and due dates, `toLocaleDateString`) are not modelled.
- `Text.ToLower`, `Text.ToUpper`: only the letters A-Z and a-z and the Latin-1 letters À-Þ and à-þ (except × and ÷) are mapped. Every other character is left unchanged.
  - `ß` is left unchanged, whereas JavaScript upper-cases it to `SS`.
  - `ÿ` is left unchanged, whereas JavaScript upper-cases it to `Ÿ`.
  - `µ` is left unchanged, whereas JavaScript upper-cases it to the Greek `Μ`.
  - Letters outside Latin-1 are left unchanged.
- `PillNav.Initials`: "never a lower-case letter" holds only for the lower-case letters of the model's mapping.
- `PillNav.Substring2`, `PillNav.Initials`: strings are sequences of Unicode characters, whereas `substring(0, 2)` counts UTF-16 code units. For a name starting with a character outside the Basic Multilingual Plane, such as an emoji, the model keeps one character more than the source.
- `AdminGestion.SearchDni` and `AdminGestion.SearchLegajo` treat the DNI and legajo as strings. The `String(...)` conversion of a numeric value is not modelled.
- `AdminGestion.AdminGestionPage.EstadoChange`: the option id is an integer, so `parseInt` of the selector's text is not modelled.
  - A missing coupon or a coupon without status makes the source throw. The model states this as "nothing sent, nothing changed".
- A missing `message` in a thrown error and an empty one are both shown as the fallback text, as `||` does. Where the source stores `undefined`, the model stores `""` (`ResetPassword.ResetPasswordPage.Submit`).
- The GSAP animations of `PillNav.js` are not modelled: pill hover circles, logo rotation and hamburger and menu transitions.
- Layout, icons and CSS classes are mostly not modelled. The classes that encode a decision are kept: badges, the status selector colours, the pill `is-active` class and the dialog header colours.
- The void dialog's title with the coupon number is not modelled.
- `ResetPassword.ResetPasswordPage.Submit`: the page imports `confirmPasswordReset` from `services/authApi.js`, which exports only `loginUser`. With these files the call throws inside the `try`, so every submission that passes validation lands on the error path. The model takes the call's outcome as a free parameter, so its success path is not reachable with the repository as it stands.
- `ConfirmDeleteModal.js`, the login, forgot-password and profile pages, the layouts and `Logs.js` are not part of this model.
