# Invoicing front end: a verified model of its decision logic

The project models the deterministic core of a React invoicing application for
organizations (establishments) that issue definitive and proforma invoices in
FCFA. It covers:

- **Invoice totals and line-item editing** on the creation and edit pages.
  HT is the sum of quantity × unit price, plus the labour cost on the creation
  page only. VAT is HT × rate / 100 and TTC is HT + VAT. Each page class holds
  its item list and applies the append, remove-at-index and update-one-field
  edits.
- **The PDF renderer.** This covers the header-image defaults and placement in
  the 170 mm band, the px→mm factor, the vertical cursor, the fallback title and
  the body layout. Both entry points emit the same abstract draw-event log, and
  each ends differently: one saves the file under its name, the other opens the
  print window.
- **The current-organization context.** Selection prefers the saved id, then
  takes the first organization. It also takes the role from the first
  organization and persists the selection.
- **The header-design admin page.** This covers file acceptance, the upload
  path, the loaded defaults and the upload and save handlers.
- **The admin REST client's payload cleaners** for organization create and
  update, and its bearer header.
- **The two admin organization pages.** This covers the case-insensitive
  searches, the form filled by "edit", the expand/collapse set, the users map
  and the total user count.
- **The two login gates.** One is the ordinary sign-in and session restore; the
  other is the admin login. Every network answer is an input.

Modules follow the source files:

- `InvoiceItems` holds what the two invoice pages share.
- `Text` holds the string operations the pages rely on: trim, ASCII
  lower-casing, substring search, and the text after the last dot.
- `Shared` holds the JavaScript optional value, awaited outcomes, the
  organization record, and a generic order-preserving filter.

Code that changes state step by step is modelled as classes with `modifies`
clauses, and `while` loops where the source loops. Pure expressions are
modelled as functions and lemmas.

The edit page neither adds the labour cost to its totals nor sends it, unlike
the creation page; the model keeps that behaviour, and
`EditInvoice.EditDropsLabour` states the resulting gap.

## Model

| member | source | states |
|---|---|---|
| InvoiceItems.ComputeTotals | src/pages/CreateInvoice.tsx:37-42 | HT minus labour is the item sum, VAT × 100 = HT × rate, TTC − VAT = HT |
| InvoiceItems.TotalsScale | src/pages/CreateInvoice.tsx:40-41 | TTC = HT × (1 + rate/100); with a zero rate TTC equals HT |
| InvoiceItems.SumConcat | src/pages/CreateInvoice.tsx:38 | the item sum distributes over concatenation |
| InvoiceItems.SumNonNegative | src/pages/CreateInvoice.tsx:38 | non-negative quantities and prices give a non-negative sum |
| InvoiceItems.TotalsOrdered | src/pages/CreateInvoice.tsx:37-42 | with non-negative lines, labour and rate, 0 ≤ HT ≤ TTC |
| InvoiceItems.Appended | src/pages/CreateInvoice.tsx:23-25 | one more line, the old lines kept as a prefix, the new one the default line |
| InvoiceItems.Without | src/pages/CreateInvoice.tsx:27-29 | exactly position i removed, the others in order; an out-of-range index removes nothing |
| InvoiceItems.Apply | src/pages/CreateInvoice.tsx:33 | only the edited field changes |
| InvoiceItems.Updated | src/pages/CreateInvoice.tsx:31-35 | same length, line i edited, every other line unchanged |
| InvoiceItems.AppendKeepsTotals | src/pages/CreateInvoice.tsx:23-25 | appending the default line leaves all three totals unchanged |
| InvoiceItems.SumWithout | src/pages/CreateInvoice.tsx:27-29 | removing line i lowers the sum by exactly that line's total |
| InvoiceItems.SumUpdated | src/pages/CreateInvoice.tsx:31-35 | editing line i changes the sum by that line's change only |
| InvoiceItems.DesignationEditKeepsTotals | src/pages/CreateInvoice.tsx:31-35 | renaming a line never changes the totals |
| InvoiceItems.OfferedRemoveKeepsALine | src/pages/CreateInvoice.tsx:199-207 | a removal offered only with more than one line never empties the list |
| CreateInvoice.CreatePayload | src/pages/CreateInvoice.tsx:57-65 | empty client fields sent as absent; labour sent iff positive; the rest as held |
| CreateInvoice.CreateInvoicePage.constructor | src/pages/CreateInvoice.tsx:13-21 | one default line, VAT 18, labour 0, empty client fields |
| CreateInvoice.CreateInvoicePage.AddItem | src/pages/CreateInvoice.tsx:23-25 | the list becomes the appended list, totals unchanged, never empty |
| CreateInvoice.CreateInvoicePage.RemoveItem | src/pages/CreateInvoice.tsx:27-29 | the list loses position i, HT drops by that line's total, never empty |
| CreateInvoice.CreateInvoicePage.UpdateItem | src/pages/CreateInvoice.tsx:31-35 | the list is the updated list, HT changes by the edited line's change |
| CreateInvoice.CreateInvoicePage.Submit | src/pages/CreateInvoice.tsx:45-73 | no organization: error, nothing sent; otherwise the payload is sent, then navigation or the error message |
| CreateInvoice.WorkedExamples | src/pages/CreateInvoice.tsx:37-42 | 2 × 5000 at 19.25 % gives 10000/1925/11925; 3 × 1000 at 18 % gives 3000/540/3540, or 3500/630/4130 with 500 labour |
| EditInvoice.Project | src/pages/EditInvoice.tsx:42-46 | same count and order, each line's designation, quantity and price |
| EditInvoice.EditTotals | src/pages/EditInvoice.tsx:68-70 | the creation page's totals with no labour cost |
| EditInvoice.UpdatePayload | src/pages/EditInvoice.tsx:81-88 | client fields as held, no labour cost |
| EditInvoice.EditInvoicePage.constructor | src/pages/EditInvoice.tsx:17-27 | loading, definitive, VAT 18, one default line |
| EditInvoice.EditInvoicePage.LoadInvoice | src/pages/EditInvoice.tsx:33-52 | no id: nothing changes; loaded: the form holds the projected invoice; failed: only the message changes |
| EditInvoice.EditInvoicePage.AddItem | src/pages/EditInvoice.tsx:54-56 | the list becomes the appended list, totals unchanged |
| EditInvoice.EditInvoicePage.RemoveItem | src/pages/EditInvoice.tsx:58-60 | the list loses position i, HT drops by that line's total, never empty |
| EditInvoice.EditInvoicePage.UpdateItem | src/pages/EditInvoice.tsx:62-66 | the list is the updated list, HT changes by the edited line's change |
| EditInvoice.EditInvoicePage.Submit | src/pages/EditInvoice.tsx:72-96 | missing id, then missing organization, each an error with nothing sent; otherwise the payload, then navigation to the invoice or the error |
| EditInvoice.LoadedSum | src/pages/EditInvoice.tsx:42-46 | the loaded HT equals the sum of the stored quantity × price products |
| EditInvoice.EditDropsLabour | src/pages/EditInvoice.tsx:68 | the edit page's HT falls short of the creation page's by exactly the labour cost |
| PdfGenerator.Rows | src/lib/pdfGenerator.ts:131-136 | one row per item, in order, the total cell quantity × price |
| PdfGenerator.ColumnTotalIsSum | src/lib/pdfGenerator.ts:131-136 | the table's total column adds up to the item sum |
| PdfGenerator.DrawFallbackTitle | src/lib/pdfGenerator.ts:73-83 | draws exactly the fallback title of the type and leaves the text colour black |
| PdfGenerator.DrawHeader | src/lib/pdfGenerator.ts:38-100 | draws the header events and returns the content start line of the specification functions |
| PdfGenerator.DrawBody | src/lib/pdfGenerator.ts:102-150 | draws number, date, client block, table and totals as the body function lays them out |
| PdfGenerator.DrawPage | src/lib/pdfGenerator.ts:34-150 | header then body |
| PdfGenerator.GenerateInvoicePdf | src/lib/pdfGenerator.ts:34-155 | the page, then a save under the type-and-number file name |
| PdfGenerator.PrintInvoice | src/lib/pdfGenerator.ts:157-273 | the identical page, then the print window |
| PdfGenerator.HeaderDefaults | src/lib/pdfGenerator.ts:48-50 | unset or zero height/width/position fall back to 40 px, 100 %, center; set values are kept |
| PdfGenerator.PlacementAnchors | src/lib/pdfGenerator.ts:53-67 | width = 170 × percent / 100; left at 20, right ending at 190, centre with equal gaps; y = 10, height = px × 0.35 |
| PdfGenerator.PlacementInsideBand | src/lib/pdfGenerator.ts:52-62 | a percentage in [0, 100] keeps the image inside 20..190 |
| PdfGenerator.WideImageOverflows | src/lib/pdfGenerator.ts:52-62 | a percentage above 100 leaves the band whatever the position |
| PdfGenerator.PlacementExamples | src/lib/pdfGenerator.ts:53-62 | 100 % centred starts at 20; 50 % right starts at 105 |
| PdfGenerator.ContentStart | src/lib/pdfGenerator.ts:65-68 | content starts 5 mm below the loaded image, else at 40 |
| PdfGenerator.FallbackDependsOnlyOnType | src/lib/pdfGenerator.ts:70-99 | without a drawn image the header is the type's title alone: two lines (the second red) for a proforma, one otherwise |
| PdfGenerator.BodyLayout | src/lib/pdfGenerator.ts:102-150 | number at the start line; date line iff a creation date; with a client, the "Client:" label at +20 and the table at +45, else the table at +20; stored totals last |
| PdfGenerator.FileNameInjective | src/lib/pdfGenerator.ts:153 | distinct type or number give distinct file names |
| OrganizationContext.FindById | src/contexts/OrganizationContext.tsx:51 | none iff no organization has the id; otherwise the first one that has it |
| OrganizationContext.OrganizationState.constructor | src/contexts/OrganizationContext.tsx:23-26 | empty list, nothing selected, no role, loading |
| OrganizationContext.OrganizationState.LoadOrganizations | src/contexts/OrganizationContext.tsx:28-66 | no session or failed fetch: only loading ends; otherwise the list, the role from the first organization when present, the selection rule with an empty list keeping the previous one |
| OrganizationContext.OrganizationState.SetCurrentOrganization | src/contexts/OrganizationContext.tsx:72-75 | the organization becomes current and its id is persisted |
| OrganizationContext.SelectPrefersSaved | src/contexts/OrganizationContext.tsx:49-52 | a saved id present in the list selects an organization with that id |
| OrganizationContext.SelectFallsBackToFirst | src/contexts/OrganizationContext.tsx:50-52 | a missing, empty or unmatched saved id selects the first organization |
| OrganizationContext.SelectEmpty | src/contexts/OrganizationContext.tsx:54-59 | an empty list selects nothing |
| OrganizationContext.ReloadKeepsSelection | src/contexts/OrganizationContext.tsx:72-75 | a persisted non-empty id still in the list is selected again; with unique ids, the same organization |
| OrganizationContext.EmptySavedIdIsIgnored | src/contexts/OrganizationContext.tsx:50 | a saved empty id reads as absent |
| AdminOrganizationDesign.Loaded | src/pages/AdminOrganizationDesign.tsx:38-41 | URL or ""; an unset or zero height gives 60, an unset or zero width 100, an unset or empty position center; set values are kept |
| AdminOrganizationDesign.UploadPathFolder | src/pages/AdminOrganizationDesign.tsx:80-81 | the path starts with the header folder, the organization id and "-header-" |
| AdminOrganizationDesign.UploadPathExtension | src/pages/AdminOrganizationDesign.tsx:79-81 | the path keeps the file's text after its last dot, the whole name when it has none |
| AdminOrganizationDesign.UploadPathsDifferByExtension | src/pages/AdminOrganizationDesign.tsx:79-81 | files with different extensions never share a path |
| AdminOrganizationDesign.DesignPage.constructor | src/pages/AdminOrganizationDesign.tsx:10-24 | loading, nothing selected, height 60, width 100, center |
| AdminOrganizationDesign.DesignPage.LoadData | src/pages/AdminOrganizationDesign.tsx:30-47 | no id: nothing changes; otherwise the name and the loaded settings with defaults, or the message |
| AdminOrganizationDesign.DesignPage.HandleFileSelect | src/pages/AdminOrganizationDesign.tsx:49-69 | a non-image or a file over 5 MB sets its error and keeps the previous selection; an accepted file is selected with its preview |
| AdminOrganizationDesign.DesignPage.HandleUpload | src/pages/AdminOrganizationDesign.tsx:71-107 | nothing without a file and an id; success stores the public URL and clears selection and preview; failure keeps URL, selection and preview and shows the message |
| AdminOrganizationDesign.DesignPage.HandleSubmit | src/pages/AdminOrganizationDesign.tsx:109-152 | an empty URL is an error with nothing saved and the preview kept; otherwise exactly the current URL, height, width and position are sent; success clears the preview, failure keeps it |
| AdminOrganizationDesign.LoadSaveLoad | src/pages/AdminOrganizationDesign.tsx:38-41 | saving the loaded form and loading again shows the same form |
| AdminOrganizationDesign.SaveLoad | src/pages/AdminOrganizationDesign.tsx:131-136 | a saved body with an image reads back unchanged |
| AdminOrganizationDesign.FormMatchesPdf | src/pages/AdminOrganizationDesign.tsx:39-41 | the form and the renderer agree on width and position; an unset or zero height shows 60 on the form but renders at 40 |
| AdminApi.AuthHeader | src/lib/adminApi.ts:5-10 | a bearer header iff the session has a token, and nothing else |
| AdminApi.PutIfKept | src/lib/adminApi.ts:155 | one conditional field assignment |
| AdminApi.PutStep | src/lib/adminApi.ts:155-161 | one more assignment cleans one more key |
| AdminApi.PutStepPlain | src/lib/adminApi.ts:219-226 | one more assignment cleans one more key |
| AdminApi.CreateOrganizationBody | src/lib/adminApi.ts:154-161 | the name as given, and the optional fields cleaned |
| AdminApi.UpdateOrganizationBody | src/lib/adminApi.ts:218-226 | every field, the name included, cleaned |
| AdminApi.CleanFieldsMeaning | src/lib/adminApi.ts:155-161 | a key is sent iff its field is set and not blank; its value is the trimmed text, never empty nor padded |
| AdminApi.BlankNameDroppedOnUpdate | src/lib/adminApi.ts:219 | an all-whitespace name is left out of the update body |
| AdminApi.CleanIdempotent | src/lib/adminApi.ts:155-161 | cleaning a cleaned body again changes nothing |
| AdminOrganizations.FilterOrganizations | src/pages/AdminOrganizations.tsx:106-115 | every shown organization matches and is listed; never more than listed |
| AdminOrganizations.FilterShape | src/pages/AdminOrganizations.tsx:106-115 | the shown list is an order-preserving subsequence; shown iff listed and matching |
| AdminOrganizations.EmptyTermShowsAll | src/pages/AdminOrganizations.tsx:107 | an empty term shows the whole list |
| AdminOrganizations.SearchIgnoresCase | src/pages/AdminOrganizations.tsx:108 | the term's case does not matter |
| AdminOrganizations.FoundByName | src/pages/AdminOrganizations.tsx:110 | an organization's own name finds it |
| AdminOrganizations.FormOf | src/pages/AdminOrganizations.tsx:66-75 | name as is, every missing or empty optional field empty, each set one copied, missing country "Cameroun" |
| AdminOrganizations.AdminOrganizationsPage.constructor | src/pages/AdminOrganizations.tsx:15-24 | blank form with country "Cameroun", form closed |
| AdminOrganizations.AdminOrganizationsPage.HandleEdit | src/pages/AdminOrganizations.tsx:64-77 | the organization is being edited, the form holds its fields, the form is open |
| AdminOrganizations.AdminOrganizationsPage.ResetForm | src/pages/AdminOrganizations.tsx:93-104 | the blank form with country "Cameroun" |
| AdminOrganizations.FormFieldLikeRecord | src/pages/AdminOrganizations.tsx:66-75 | apart from the country, a form field is kept by the cleaner iff the record's is, with the same text |
| AdminOrganizations.EditedFormCleansLikeRecord | src/pages/AdminOrganizations.tsx:64-75 | saving an opened form unchanged sends the record's cleaned fields, plus the default country when unset |
| AdminOrganizationsOverview.Toggled | src/pages/AdminOrganizationsOverview.tsx:57-65 | the id flips, every other id keeps its state |
| AdminOrganizationsOverview.FilterOrganizations | src/pages/AdminOrganizationsOverview.tsx:67-75 | every shown organization matches by name, city or email and is listed |
| AdminOrganizationsOverview.FilterShape | src/pages/AdminOrganizationsOverview.tsx:67-75 | the listed organizations are an order-preserving subsequence; listed iff present and matching |
| AdminOrganizationsOverview.EmptyTermShowsAll | src/pages/AdminOrganizationsOverview.tsx:68 | an empty term lists every organization |
| AdminOrganizationsOverview.SearchIgnoresCase | src/pages/AdminOrganizationsOverview.tsx:69 | the term's case does not matter |
| AdminOrganizationsOverview.OverviewPage.constructor | src/pages/AdminOrganizationsOverview.tsx:20-25 | empty lists, nothing expanded, loading |
| AdminOrganizationsOverview.OverviewPage.LoadData | src/pages/AdminOrganizationsOverview.tsx:31-55 | on success the list, the users map built in list order with failed fetches as empty, every id expanded; on failure only the message |
| AdminOrganizationsOverview.OverviewPage.ToggleOrg | src/pages/AdminOrganizationsOverview.tsx:57-65 | the expanded set becomes the toggled set |
| AdminOrganizationsOverview.ToggleTwice | src/pages/AdminOrganizationsOverview.tsx:57-65 | toggling twice restores the set |
| AdminOrganizationsOverview.TogglesCommute | src/pages/AdminOrganizationsOverview.tsx:57-65 | toggles commute |
| AdminOrganizationsOverview.UsersMapKeys | src/pages/AdminOrganizationsOverview.tsx:42-45 | one entry per organization id |
| AdminOrganizationsOverview.UsersMapValues | src/pages/AdminOrganizationsOverview.tsx:42-45 | an id's entry is the list at its index, unless a later organization shares the id |
| AdminOrganizationsOverview.TotalUsers | src/pages/AdminOrganizationsOverview.tsx:101 | with distinct ids, the total user count is the sum of the list lengths |
| AdminOrganizationsOverview.OverviewFindsLess | src/pages/AdminOrganizationsOverview.tsx:67-75 | a match here is a match on the organizations page, so the overview never lists more |
| AdminOrganizationsOverview.CountryOnlyOnOrganizationsPage | src/pages/AdminOrganizationsOverview.tsx:67-75 | a country-only search finds an organization on the organizations page but not here |
| AuthContext.UserOf | src/contexts/AuthContext.tsx:58 | a user iff a session, the session's user |
| AuthContext.AuthState.constructor | src/contexts/AuthContext.tsx:19-21 | no session, no user, loading |
| AuthContext.AuthState.RestoreSession | src/contexts/AuthContext.tsx:25-60 | a stored session is kept iff the check succeeds; otherwise sign out and clear both; loading ends |
| AuthContext.AuthState.OnAuthStateChange | src/contexts/AuthContext.tsx:65-69 | every event overwrites session and user and ends loading |
| AuthContext.SignIn | src/contexts/AuthContext.tsx:79-105 | completes iff a token and a verified non-admin; signs out iff no token, a refused check or an admin; each error message |
| AuthContext.SignInSignsOutOnlyOnRefusal | src/contexts/AuthContext.tsx:83-104 | a completed sign-in never signs out; a refused one signs out unless the provider or the request failed |
| AdminLogin.AdminLoginPage.constructor | src/pages/AdminLogin.tsx:10-11 | no error, not loading |
| AdminLogin.AdminLoginPage.HandleSubmit | src/pages/AdminLogin.tsx:13-51 | dashboard iff a session and a verified admin; a verified non-admin is signed out with "Accès admin requis"; each other error; loading ends |
| AdminLogin.LoginsDisjoint | src/pages/AdminLogin.tsx:40-43 | no account passes both logins |
| AdminLogin.LoginsSplitByAdminFlag | src/pages/AdminLogin.tsx:40-45 | with a token and a verified account, exactly one login admits it, by its admin flag |
| AdminLogin.AdminLoginIgnoresMissingToken | src/pages/AdminLogin.tsx:27 | the admin login admits a session without a token, which the ordinary sign-in refuses |
| Text.TrimEmptyIff | src/lib/adminApi.ts:155 | a string trims to empty iff it is all whitespace |
| Text.TrimIdempotent | src/lib/adminApi.ts:155 | trimming twice is trimming once |
| Text.IncludesIff | src/pages/AdminOrganizations.tsx:110 | substring search holds iff the needle occurs at some offset |
| Text.AfterLastDotIsLastSegment | src/pages/AdminOrganizationDesign.tsx:79 | the extension is the suffix after the last dot, or the whole name without one |
| Shared.MessageOr | src/pages/CreateInvoice.tsx:69 | the error's message, or the page's fallback when it is empty |
| Shared.FilterIsSubsequence | src/pages/AdminOrganizations.tsx:106 | a filter keeps an order-preserving subsequence, and an element iff it passes |
| Shared.FilterMonotone | src/pages/AdminOrganizationsOverview.tsx:67 | a stronger test never keeps more elements |

## Left out

- All HTTP and identity-provider I/O is left out: the REST calls, the storage upload, sign-in and sign-out. Each page method takes the outcome of its calls as inputs (`Result`, `Status`, `MeResponse`). A `signedOut` flag records a call to sign out.
- Reading a JSON body is not modelled separately. A body that fails to parse counts as the `/auth/me` request throwing. On the admin login, a null body makes reading its admin flag throw, which is taken the same way. On the ordinary sign-in, a null body counts as "not an admin".
- `imageUrlToBase64` and the canvas are inputs. The image loading is one boolean input, `imageLoads`.
- The jsPDF and autoTable drawing calls are not executed. The pages produce an abstract log of text, image, table, save and print events instead. The table's final line is a parameter.
- Display formatting is kept abstract. Events carry the raw amount and the raw date string: `toFixed(0)` rounding and the French date formatting are not reproduced.
- Amounts are exact reals, not IEEE-754 doubles. A `NaN` from a non-numeric input field is not modelled.
- Lower-casing covers ASCII letters only.
- Trimming removes a fixed list of whitespace characters rather than every Unicode space.
- `Date.now()` is the `now` parameter of the upload path. `URL.createObjectURL` is the `objectUrl` parameter.
- Local storage is the single `savedOrgId` field of the organization state.
- The per-organization user fetches run concurrently in the source. They are taken in list order.
- Console logging, `window.confirm`/`alert`, routing, and the display-only pages are not modelled: the application shell, dashboards, invoice list and details, user and assignment pages, and organization settings.
- The pages import the invoice client under a name the invoice module does not export. That wiring is not modelled; the pages' calls are modelled by their outcomes.
- Of the organizations admin page, `loadOrganizations`, `handleSubmit` and `handleDelete` are not modelled. They only chain REST calls and messages; the bodies they send are `AdminApi.CreateOrganizationBody` and `AdminApi.UpdateOrganizationBody`.
- The sign-up and sign-out wrappers of the authentication context just forward to the provider, so they are not modelled.
- The unsubscribe of the auth listener is not modelled.
- AdminOrganizationsOverview.TotalUsers: the user count is a ghost function over the map's entries, because the map's iteration order is not modelled. The equality with the sum of list lengths needs distinct organization ids.
- InvoiceItems.Updated: requires an index inside the list. Its only caller edits the row being rendered; an out-of-range index, which would append a partial line in the source, is not modelled.
- CreateInvoice.CreateInvoicePage.RemoveItem: requires more than one line, as the remove button is only rendered then. EditInvoice.EditInvoicePage.RemoveItem has the same requirement.
