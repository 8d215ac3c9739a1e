# ForwardWorkx proposal builder — a Dafny model

The application lets a sales contact pick agency services from a catalog and turn them into a priced proposal PDF.
Picked services first collect in a *pending selection*.
"Add to proposal" commits the selection into the *cart*, merging quantities of services already there.
The cart is reviewed in a sidebar, and a preview screen produces the PDF.
Downloading the PDF records the client as a lead, keyed by email.
An admin dashboard edits the catalog and the PDF's template text, exports CSV files and charts the catalog.

This project models that core in Dafny:

- `wrappers.dfy`, `types.dfy`: the records of `types.ts` (`ServiceItem`, `CartItem` as `Line`, `ClientInfo`, `Customer`, `ProposalConfig`). It also holds the callbacks components raise and JavaScript truthiness of optional numbers and strings.
- `text.dfy`: `split` with a literal separator, `join`, the whitespace set behind `trim`, ASCII `toUpperCase`.
- `seqs.dfy`: order-preserving `filter` and its laws.
- `pricing.dfy`: the sums every screen computes: one-time subtotal, monthly subtotal, unit count, 18% GST.
- `cart.dfy`: App.tsx. The pure updaters, the commit merge, the email-keyed lead upsert, and the class `ProposalBuilder` that owns the pending selection, cart, lead log, client details and current screen, with one method per handler.
- `pdf.dfy`: PDFGenerator.tsx. The enable gate, the texts, table rows, the totals rows and the file name, and `GeneratePdf`, which runs the vertical cursors step by step.
- `cart_sidebar.dfy`, `service_card.dfy`, `sticky_summary.dfy`: what those components show and which callbacks their buttons make.
- `csv.dfy`, `admin_panel.dfy`: the CSV export text with a reader proving it lossless. Catalog editing, the terms split, the chart tally and the class `Dashboard` holding the admin state.
- `app_views.dfy`: how App feeds the components, and that the totals they show agree.

Amounts are exact `real`s and quantities `int`s.
The PDF library's measurements are inputs: the wrapped line counts of the summary and of each term, and where the table ends.
So are the clock's values: new lead ids, join dates and new service ids.

## Model

| member | source | states |
|---|---|---|
| Types.MonthlyOrZero | App.tsx:267 | `monthlyPrice \|\| 0`: the monthly price when present and non-zero, otherwise 0 |
| Text.JoinSplit | components/AdminPanel.tsx:20 | joining the parts of a split with the same separator gives back the original text |
| Text.SplitJoin | components/AdminPanel.tsx:104 | splitting on a character that no part contains undoes the join |
| Text.SplitPartsFree | components/AdminPanel.tsx:104 | no part of a split on a character contains that character |
| Text.AsciiUpper | components/PDFGenerator.tsx:33 | same length; letters a-z become A-Z, every other character is kept |
| Seqs.Filter | App.tsx:54 | every element of the result passes and comes from the input, every passing input element is in it, and it is no longer than the input |
| Seqs.FilterCount | App.tsx:54 | each value occurs in the result as often as in the input when it passes, and not at all when it fails |
| Seqs.FilterAppend | App.tsx:54 | filtering a concatenation is the concatenation of the filtered parts, so the input order is kept |
| Seqs.FilterKeepsAll | App.tsx:105 | filtering a list whose elements all pass returns it unchanged |
| Seqs.FilterDropsAll | App.tsx:105 | filtering a list none of whose elements pass gives the empty list |
| Seqs.FilterDropsOne | App.tsx:105 | when only the element at k fails, the filter removes exactly that element and keeps order |
| Pricing.TotalWithTaxAgrees | App.tsx:268 | subtotal × 1.18 equals subtotal plus 18% GST, as computed in the sidebar and the PDF |
| Pricing.SubtotalsNonNegative | App.tsx:266-267 | with non-negative quantities and prices, both subtotals are non-negative |
| Pricing.ItemCountBounds | components/CartSidebar.tsx:27 | with every quantity at least 1, the unit count is at least the number of lines and is 0 exactly for the empty list |
| Pricing.WorkedExample | components/PDFGenerator.tsx:161-165 | 2 × ₹1000 plus 1 × ₹500 with ₹200/month gives subtotal 2500, GST 450, total 2950, monthly 200 |
| ProposalCart.IndexOfId | App.tsx:77 | `findIndex` on id: the first matching index, or -1 exactly when no line has the id |
| ProposalCart.FindLineIndex | App.tsx:77 | the scan returns the first index whose id matches, or -1 |
| ProposalCart.SameIdsSameIndex | App.tsx:77 | the search depends only on ids: two lists with the same ids in the same places give the same index |
| ProposalCart.ToggleFlips | App.tsx:50-59 | after a toggle the id is present exactly when it was absent; an absent service is appended with quantity 1; the rest of the list is unaffected |
| ProposalCart.ToggleTwiceRestores | App.tsx:50-59 | toggling an absent service twice restores the selection exactly |
| ProposalCart.ToggleKeepsInvariant | App.tsx:50-59 | toggling keeps ids distinct and quantities at least 1 |
| ProposalCart.ChangeQuantity | App.tsx:63-69 | same length, same items, each matching line gets max(floor, q + delta), other lines unchanged |
| ProposalCart.PendingDeltaRule | App.tsx:61-71 | pending quantities stay at least 1, ids stay distinct, and an unknown id changes nothing |
| ProposalCart.RemoveIdExactly | App.tsx:93-95 | removal drops every line with the id, keeps every other line, adds nothing, and keeps ids distinct |
| ProposalCart.RemoveIdAt | App.tsx:93-95 | with distinct ids, removing line k's id removes exactly line k and keeps the order of the rest |
| ProposalCart.CartDeltaKeepsInvariant | App.tsx:97-107 | after a cart quantity change every quantity is at least 1 and ids stay distinct |
| ProposalCart.CartDeltaAt | App.tsx:97-107 | with quantities at least 1, only the target line can change: it drops out exactly when q + delta ≤ 0, otherwise it gets q + delta in place |
| ProposalCart.CartDeltaAbsent | App.tsx:97-107 | with quantities at least 1, an unknown id leaves the cart unchanged |
| ProposalCart.CartWithPrice | App.tsx:109-111 | only `price` changes, and only on lines with the id; ids, quantities, order and other fields are kept |
| ProposalCart.PriceChangeEffect | App.tsx:109-111 | a price change moves the one-time subtotal by (new − old) × quantity and leaves the monthly total, unit count and distinct ids alone |
| ProposalCart.PriceChangeOneTime | App.tsx:109-111 | the one-time subtotal moves by (new − old price) × that line's quantity |
| ProposalCart.PriceChangeAt | App.tsx:109-111 | with distinct ids the override replaces exactly the one line and keeps the rest |
| ProposalCart.LineOneTimeDelta | App.tsx:109-111 | for a fixed quantity, a line's total moves by the price difference times the quantity |
| ProposalCart.MergeLineQuantities | App.tsx:76-86 | merging one pending line adds its quantity to that id's total and to the unit count |
| ProposalCart.MergeInto | App.tsx:77-85 | one pass of the loop body gives the one-step merge: the matching line gains the quantity, or the line is appended |
| ProposalCart.Commit | App.tsx:75-87 | the loop over the selection builds the merge of every pending line into the copy of the cart, in order |
| ProposalCart.MergeConservesQuantity | App.tsx:73-89 | after commit, each id's quantity, and the unit count, is the cart's plus the selection's |
| ProposalCart.MergeKeepsPositions | App.tsx:73-89 | existing cart lines keep their positions and items; the ids present afterwards are those of the cart and of the selection |
| ProposalCart.MergeKeepsInvariant | App.tsx:73-89 | commit keeps cart ids distinct, and keeps quantities at least 1 when both inputs had that |
| ProposalCart.MergeExamples | App.tsx:78-85 | a selected service already in the cart with 3 gets 5 after adding 2; into an empty cart the line is appended |
| ProposalCart.IndexOfEmail | App.tsx:132 | the first record with the client's email, or -1 exactly when there is none |
| ProposalCart.FindCustomerIndex | App.tsx:132 | the scan returns the first index with the email, or -1 |
| ProposalCart.UpsertEffect | App.tsx:130-155 | on a match: same length, company, contact and mobile refreshed, count + 1, id, email, category and join date kept, others untouched; otherwise exactly one record appended after the others, with the client's email, company, contact and phone and count 1 |
| ProposalCart.UpsertKeepsDistinct | App.tsx:130-155 | the log keeps one record per email and afterwards holds the client's email |
| ProposalCart.TwoDownloadsOneRecord | App.tsx:130-155 | two downloads by a new email leave one more record than before, with count 2 |
| ProposalCart.ProposalBuilder.constructor | App.tsx:24-36 | the start state: empty selection, cart and lead log, catalog screen, sidebar closed |
| ProposalCart.ProposalBuilder.TogglePendingItem | App.tsx:50-59 | the selection becomes the toggled list; nothing else changes; the invariant holds |
| ProposalCart.ProposalBuilder.UpdatePendingQuantity | App.tsx:61-71 | the selection gets the floor-1 quantity change; nothing else changes |
| ProposalCart.ProposalBuilder.MoveToCart | App.tsx:73-91 | the loop builds the merge of the selection into the cart, in order; the selection empties and the sidebar opens |
| ProposalCart.ProposalBuilder.ClearPending | App.tsx:89 | the selection empties; the cart and all else are unchanged |
| ProposalCart.ProposalBuilder.RemoveFromCart | App.tsx:93-95 | the cart loses the lines with the id; nothing else changes |
| ProposalCart.ProposalBuilder.UpdateCartQuantity | App.tsx:97-107 | the cart gets the floor-0 change with emptied lines dropped; nothing else changes |
| ProposalCart.ProposalBuilder.UpdateCartPrice | App.tsx:109-111 | the cart gets the new price on the id's lines; nothing else changes |
| ProposalCart.ProposalBuilder.ChangeClientInfo | App.tsx:117-119 | the client details are replaced; nothing else changes |
| ProposalCart.ProposalBuilder.HandleProceed | App.tsx:166-169 | the screen becomes the preview unless the cart is empty, in which case it stays |
| ProposalCart.ProposalBuilder.CloseCart | components/CartSidebar.tsx:29 | the sidebar closes; nothing else changes |
| ProposalCart.ProposalBuilder.ReviewProposal | components/CartSidebar.tsx:93 | "Review Proposal" closes the sidebar, then goes to the preview only if the cart is non-empty |
| ProposalCart.ProposalBuilder.FinalizeAndDownload | App.tsx:130-156 | the lead log becomes the email-keyed upsert of the client and the success banner shows |
| ProposalCart.ProposalBuilder.DownloadProposal | components/PDFGenerator.tsx:195-202 | no document and no state change exactly when the button is disabled; otherwise the document has the cart's rows, totals and file name and the lead is recorded |
| ProposalCart.ProposalBuilder.ResetAfterDownload | App.tsx:157-163 | cart and selection empty, banner hidden, back to the catalog |
| ProposalCart.ProposalBuilder.TotalWithTax | App.tsx:266-268 | the preview total with tax equals subtotal plus 18% GST |
| ProposalPdf.HeaderTitle | components/PDFGenerator.tsx:32 | the template's title when present and non-empty, otherwise a non-empty fallback |
| ProposalPdf.ContactEmail | components/PDFGenerator.tsx:65 | the template's email when present and non-empty, otherwise a non-empty fallback |
| ProposalPdf.ClientBlock | components/PDFGenerator.tsx:81-86 | at most four lines; the company line first and the phone line last when present; none exactly when all four fields are empty |
| ProposalPdf.ValidClientBlock | components/PDFGenerator.tsx:81-86 | when the gate is open, company, contact and email lines come first, then the phone line exactly when a phone is given |
| ProposalPdf.TableRow | components/PDFGenerator.tsx:107-113 | the one-time cell is '-' exactly when price ≤ 0; the monthly cell is '-' exactly when the monthly price is absent or 0; the last cell is price × quantity; the description is appended under the name when present |
| ProposalPdf.TableRows | components/PDFGenerator.tsx:107-113 | one row per cart line, in cart order |
| ProposalPdf.TableTotalsMatchSubtotal | components/PDFGenerator.tsx:112 | the table's last column sums to the one-time subtotal |
| ProposalPdf.BlockStartBounds | components/PDFGenerator.tsx:87-105 | with k client lines the next block starts at max(71 + 5k, 81) + 10 ≥ 91; a summary of n lines puts the table at that + 16 + 5n |
| ProposalPdf.TotalRowsShape | components/PDFGenerator.tsx:155-183 | three rows at table end + 15, + 22 and + 29 carry subtotal, 18% GST and their sum; a fourth, accented row at + 39 with the monthly total appears exactly when that total is positive |
| ProposalPdf.TermsGoDown | components/PDFGenerator.tsx:185-193 | each term starts 3.5 × (wrapped lines of the previous term) below it |
| ProposalPdf.Sanitize | components/PDFGenerator.tsx:195 | same length; each ASCII letter or digit kept, every other character '_' |
| ProposalPdf.SanitizeSafe | components/PDFGenerator.tsx:195 | the result holds only letters, digits and '_', a name already of that form is unchanged, and sanitising twice equals once |
| ProposalPdf.StackLines | components/PDFGenerator.tsx:69-72 | the loop places line j at top + 5j and leaves the cursor 5 per line lower |
| ProposalPdf.DrawTotals | components/PDFGenerator.tsx:159-183 | the cursor-driven drawing yields exactly the totals rows at their positions |
| ProposalPdf.DrawTerms | components/PDFGenerator.tsx:185-193 | the loop places term j at table end + 20 + 3.5 × (wrapped lines before it) |
| ProposalPdf.GeneratePdf | components/PDFGenerator.tsx:17-196 | title at 20, sender lines from 30, client block from 71, date at 71, summary and table start by the cursor rules, rows, totals and terms as above, and the sanitised file name |
| CartSidebar.EntryOf | components/CartSidebar.tsx:44-74 | the −, + and trash buttons carry the line's own id with −1, +1 and removal; the line total is one-time plus monthly amount for the line |
| CartSidebar.SidebarOf | components/CartSidebar.tsx:17-97 | header count is the unit count; empty-state exactly when the cart is empty; footer exactly when not, showing subtotal + 18% and the monthly subtotal; one entry per line |
| CartSidebar.EntryTotalsSum | components/CartSidebar.tsx:72 | the line totals add up to the one-time plus the monthly subtotal |
| ServiceCard.CardOf | components/ServiceCard.tsx:22-99 | selected exactly when the pending quantity is positive; badge exactly when the saved quantity is; price labels by price > 0 and monthly > 0; ±1 controls for this id only while selected |
| ServiceCard.ManualQuantity | components/ServiceCard.tsx:24-30 | no call for unparsable input or a value below 1; otherwise the call sends value − pending quantity for this id |
| StickySummary.PanelOf | components/StickySummary.tsx:20-131 | empty mode exactly when both lists are empty; selection mode whenever the selection is non-empty, with its size and total and the cart's unit count exactly when the cart is non-empty; cart mode otherwise, with unit count, subtotal and per-line remove calls |
| Csv.DoubleQuotes | components/AdminPanel.tsx:34 | the doubled text is never shorter than the original |
| Csv.DoubleQuotesQuoteFree | components/AdminPanel.tsx:34 | text without quotes is left unchanged |
| Csv.DoubleQuotesLength | components/AdminPanel.tsx:34 | the doubled text is longer than the original by exactly its number of quotes |
| Csv.CollapseDoubled | components/AdminPanel.tsx:34 | collapsing each doubled quote back to one recovers the original text, so the doubling loses nothing |
| Csv.EscapeField | components/AdminPanel.tsx:34 | the field starts and ends with a quote |
| Csv.EscapeQuoteFree | components/AdminPanel.tsx:34 | a field without quotes is just wrapped in quotes |
| Csv.FieldRoundTrip | components/AdminPanel.tsx:33-34 | stripping the outer quotes and collapsing doubled quotes recovers the text |
| Csv.RowRoundTrip | components/AdminPanel.tsx:31-36 | reading a data line gives back exactly its field texts, as many as there were and in order |
| Csv.RowLineInjective | components/AdminPanel.tsx:31-36 | two different records never print the same data line |
| Csv.FieldText | components/AdminPanel.tsx:33 | null or undefined prints as the empty string |
| Csv.CsvLines | components/AdminPanel.tsx:28-37 | one header line of the first record's keys joined by ',', then one line per record |
| Csv.DataLinesReadBack | components/AdminPanel.tsx:31-37 | every data line reads back as that record's values under the header's names, one per header field, in header order |
| Csv.CsvText | components/AdminPanel.tsx:25-39 | nothing when there are no records, otherwise the lines joined by '\n' |
| AdminPanel.FormOf | components/AdminPanel.tsx:65-68 | the form holds every required field of the service with its value; each optional field is held, with its value, exactly when the service has it |
| AdminPanel.FormRestoresAnyVersion | components/AdminPanel.tsx:65-74 | the copy is complete: saving it over any version of the service that lacks no optional key the copy lacks gives back the copied service |
| AdminPanel.WithInput | components/AdminPanel.tsx:80-82 | an input sets exactly its own key of the form |
| AdminPanel.InputIsSaved | components/AdminPanel.tsx:70-82 | whatever the form held, a typed value is what saving writes into that field |
| AdminPanel.OverlayNeutral | components/AdminPanel.tsx:70-74 | saving an untouched copy, or the empty form, leaves the service unchanged |
| AdminPanel.SavedEdit | components/AdminPanel.tsx:70-74 | same length; the service with the edited id gets the form laid over it, all others untouched; with nothing being edited nothing changes |
| AdminPanel.Toggled | components/AdminPanel.tsx:76-78 | same length; `active` flips on the matching id only and no other field changes |
| AdminPanel.ToggleTwice | components/AdminPanel.tsx:76-78 | toggling twice is the identity |
| AdminPanel.SaveUndoesToggleOfEditedRow | components/AdminPanel.tsx:65-78 | toggling the row being edited and then saving restores the row as it was when editing started, `active` included |
| AdminPanel.NewService | components/AdminPanel.tsx:84-95 | the new service is active, costs 0 and has no optional fields |
| AdminPanel.DecimalRoundTrip | components/AdminPanel.tsx:85 | the digits written for the clock reading in the new id denote exactly that reading |
| AdminPanel.SavedTerms | components/AdminPanel.tsx:104 | every saved term is non-blank and holds no newline |
| AdminPanel.TermsRoundTrip | components/AdminPanel.tsx:104 | terms that are non-blank and newline-free come back unchanged from the editor's join-then-save |
| AdminPanel.SaveTermsIdempotent | components/AdminPanel.tsx:104 | saving already-saved terms changes nothing |
| AdminPanel.ChartKey | components/AdminPanel.tsx:111 | the key is a suffix of the subcategory, and empty only for an empty subcategory |
| AdminPanel.ChartKeyWhole | components/AdminPanel.tsx:111 | a subcategory without " - " is its own key |
| AdminPanel.FindBar | components/AdminPanel.tsx:112 | the scan finds the accumulator entry for the key, if any |
| AdminPanel.ChartData | components/AdminPanel.tsx:110-114 | the loop builds the tally of the services' keys, in first-seen order |
| AdminPanel.TallyTotal | components/AdminPanel.tsx:110-114 | the counts add up to the number of keys |
| AdminPanel.CountKey | components/AdminPanel.tsx:112 | one step of the reduce: the key's bar gains one, or a new bar with count 1 is appended |
| AdminPanel.BumpDistinct | components/AdminPanel.tsx:112 | a step of the reduce never gives two bars the same name |
| AdminPanel.BumpCounts | components/AdminPanel.tsx:112 | a step of the reduce keeps every bar's count equal to the number of keys with its name |
| AdminPanel.BumpCovers | components/AdminPanel.tsx:112 | after a step of the reduce every key seen so far has a bar |
| AdminPanel.TallyCounts | components/AdminPanel.tsx:110-114 | each name has one bar, each count is how many keys carry that name and is at least 1, and every key has a bar, so a name has a bar exactly when it is a key |
| AdminPanel.ChartAccounts | components/AdminPanel.tsx:110-114 | the counts add up to the number of services, and every service's key has one bar counting the services with that key |
| AdminPanel.Dashboard.constructor | components/AdminPanel.tsx:16-22 | nothing is being edited; the template inputs start as the saved template, terms one per line |
| AdminPanel.Dashboard.StartEdit | components/AdminPanel.tsx:65-68 | the service's id is being edited and the form holds its copy |
| AdminPanel.Dashboard.InputChange | components/AdminPanel.tsx:80-82 | the form gets the input; nothing else changes |
| AdminPanel.Dashboard.SaveEdit | components/AdminPanel.tsx:70-74 | the catalog gets the overlay, and editing ends with an empty form |
| AdminPanel.Dashboard.ToggleActive | components/AdminPanel.tsx:76-78 | the catalog gets the toggle; nothing else changes |
| AdminPanel.Dashboard.AddNewService | components/AdminPanel.tsx:84-98 | exactly one new service named by the clock is appended and opened for editing |
| AdminPanel.Dashboard.TypeTemplate | components/AdminPanel.tsx:368-388 | the template inputs hold what was typed |
| AdminPanel.Dashboard.SaveTemplateConfig | components/AdminPanel.tsx:100-107 | the template becomes the typed title, the typed email, and the typed terms split by line with blank lines dropped |
| AppViews.FoundQuantity | App.tsx:380 | `find(...)?.quantity \|\| 0`: the first matching line's quantity, or 0 when there is none |
| AppViews.CardShowsState | App.tsx:380 | with quantities at least 1, a card is selected exactly when its service is pending and badged exactly when it is in the cart, with the cart quantity |
| AppViews.ToggleFlipsCard | components/ServiceCard.tsx:91-92 | clicking a card flips its selected state |
| AppViews.ManualEntrySetsQuantity | components/ServiceCard.tsx:24-30 | typing v ≥ 1 into a selected card sends the difference, and the pending quantity becomes exactly v |
| AppViews.DeltaSetsQuantity | App.tsx:61-71 | after a pending update by delta, the quantity found for that id is the old one plus delta, when that stays at least 1 |
| AppViews.TotalsAgree | components/CartSidebar.tsx:17-20 | the sidebar's total, the preview's 1.18 × subtotal and the PDF's total row are one figure; the sidebar's monthly total is the PDF's recurring row when drawn |
| AppViews.SummaryEstimateExcludesTax | components/StickySummary.tsx:23-25 | the side summary's estimate is the pre-GST subtotal: the sidebar total is it × 1.18, and both count the same units |
| AppViews.PendingNoteMatchesSidebar | components/StickySummary.tsx:77-79 | the "already in proposal" note shows the sidebar's header count |
| AppViews.CommitShowsCart | App.tsx:73-91 | after committing a non-empty selection, the side summary shows the cart, whose unit count grew by the selection's |

## Left out

- React rendering, layout, styling, icons, the logo drawing, the Recharts charts and the customer chart's name/count mapping. These are presentation only.
- The `localStorage` load and save of the cart and the `JSON` round trip. This is browser storage.
- The 1.5-second `setTimeout` before the reset. `ResetAfterDownload` is the reset itself, run as a separate step.
- The asynchronous executive-summary effect, the AI assistant and its recommendations, and the generative-API service. These are network calls. The summary reaches the PDF as a text input.
- The catalog search, the section/subcategory filtering and the expand/collapse state. These are view filtering.
- jsPDF and autoTable drawing, fonts, colours and x positions. `splitTextToSize` counts and `lastAutoTable.finalY` are inputs.
- JavaScript floating-point rounding of the 0.18 and 1.18 products, and `toLocaleString` formatting of amounts. Amounts are exact reals.
- `Date`, `Date.now()` and `toISOString`/`toLocaleDateString`. Ids and dates are inputs.
- The export file names, the Blob and anchor download, and `alert`.
- handleExportServices and handleExportCustomers: dropping `id`/`active`, adding `status`, and `String(...)` of numbers and booleans. `Csv.Record` holds the values already as text.
- `Number(...)` on the price inputs (NaN included). `PriceInput` and `MonthlyPriceInput` carry the resulting amount.
- `parseInt` of the quantity box: `ManualQuantity` takes its result as an optional integer.
- handleClientInfoChange sets one field by input name; `ChangeClientInfo` takes the whole updated record.
- Sanitize: works on characters, not UTF-16 code units, so an astral character becomes one '_' where the source writes two.
- Text.AsciiUpper: `toUpperCase` is modelled on ASCII letters only; other scripts' case mappings are not modelled.
- AdminPanel.ChartData: keys that name properties the `{}` accumulator inherits from `Object.prototype` (`constructor`, `toString`, `__proto__`, …) are not modelled. In the source, `acc[key] || 0` reads the inherited value for them (for `constructor` a function, so the count becomes a string), and an assignment to `__proto__` is dropped, so no bar appears. The model counts such keys like any other key, so ChartAccounts' total holds only for catalogs whose keys name no inherited property.
- AdminPanel.ChartData: the order `Object.entries` gives is modelled as first-seen order. JavaScript lists integer-like keys first in numeric order, and that is not modelled.
- AdminPanel.ChartKey: proved to be a suffix of the subcategory and the whole of a subcategory without " - ". That it is exactly the text after the last " - " is not stated as a lemma.
- The recommended ribbon and the monthly tag on cards, the side summary's per-item list and its two action buttons, and the CartSidebar price-update prop. The sidebar receives that prop but never calls it.
