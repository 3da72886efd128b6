# Adaptive Compliance Engine — a verified model

This project models the decision logic of the Zambia Revenue Authority tax portal in Dafny. The portal is a server-rendered PHP site with browser scripts and a few Python utilities. The model covers these parts:

- **Admin pages**: the session guard, the admin header with its defaults, the taxpayer status counts and compliance rate, the taxpayer directory, the risk-assessment window selected by `?range=`, and the high-risk queue with its filter-to-WHERE construction.
- **Taxpayer and business pages**: the TPIN-scoped compliance figures and the business dashboard widgets, badges and period text.
- **Sign-in and registration**: the admin, individual and business logins, with their validation, lookup and verify chain and session writes. Also the two registration forms, with PHP truthiness, the all-or-nothing individual insert, the business duplicate check, and admin error accumulation.
- **Browser scripts**: the taxpayer table's filters, search, sort and select-all; the alert feed; report helpers; the risk detail panel; the nudge editor and week picker; the analytics widgets; the tax calculator.
- **Python utilities**: the MySQL-to-Postgres record transform, the sliding-window rate limiter, the MySQL-to-SQLite dump rewriter, the cache-header rules and demo login, JWT payload construction, and the mobile-money business scoring script.

Database queries become functions over given tables. Each table is a `seq` of rows, and `WHERE`, `ORDER BY … DESC` and `LIMIT` are modelled in `Query` and `Sorting`.

Several things become parameters, function values or abstract callbacks:

- hashing and `password_verify`;
- e-mail validation;
- calendar functions;
- `jwt.encode`;
- the clock.

Pages that update state are classes or methods:

- the PHP session (`PhpSession.Session`);
- the registration stores;
- the rate limiter's Redis sets;
- the browser pages' rows and flags.

Pure decisions are functions, and each is paired with lemmas about it.

The behaviour is modelled as the code has it, quirks included:

- the first click on a sort header sorts descending;
- the sector filter is a substring test;
- a duplicate business registration still redirects;
- a field equal to '0' counts as empty;
- the SQL rewriter feeds regex-looking text to plain `str.replace` and skips any statement containing `SET `;
- the migration's lookups read an `id` key that no entity has, so any record that matches a taxpayer raises `KeyError`;
- `.json` counts as a `.js` asset for caching;
- the user sidebar never highlights Dashboard.

A duplicate business registration redirects to the login before its error message can be shown (`base/src/register.php:61-71`); see Register.Store.RegisterBusiness.

| Dafny file | module | source |
|---|---|---|
| strings.dfy | Strings | string built-ins of JavaScript, PHP and Python (ASCII) |
| sorting.dfy | Sorting | the stable sort used by `Array.prototype.sort` and `ORDER BY` |
| query.dfy | Query | `WHERE`, `COUNT`, `SUM`, `ORDER BY … DESC LIMIT n` |
| php.dfy | Php | PHP truthiness, `??`, `(int)` casts, percentage rates |
| days.dfy | Days | the weekday of a day number, as `Date.prototype.getDay` and PHP's `date('w')` give it |
| php_session.dfy | PhpSession | `$_SESSION` and `session_regenerate_id` |
| admin_session.dfy | AdminSession | the admin guard and header shared by the admin pages |
| taxpayers_js.dfy | TaxpayersScript | base/src/taxpayers.js |
| alerts_js.dfy | AlertsScript | base/src/alerts.js |
| reports_js.dfy | ReportsScript | base/src/reports.js |
| risk_js.dfy | RiskScript | base/src/risk.js |
| admin_script_js.dfy | AdminScript | base/src/script.js |
| analytics_js.dfy | AnalyticsScript | base/src/assets/analytics.js |
| tax_calculator.dfy | TaxCalculator | base/script.js |
| business_dashboard.dfy | BusinessDashboard | base/businesses/business_dashboard.php |
| admin_stats.dfy | AdminStats | base/src/taxpayers.php, base/src/analysis.php |
| compliance.dfy | Compliance | base/Users/compliance.php |
| admin_dashboard.dfy | AdminDashboard | base/src/dashboard.php |
| risk_queue.dfy | RiskQueue | base/src/risk.php |
| admin_login.dfy | AdminLogin | base/src/admin_login.php |
| user_login.dfy | UserLogin | base/src/login.php |
| business_login.dfy | BusinessLogin | base/businesses/business_login.php |
| register.dfy | Register | base/src/register.php |
| register_admin.dfy | RegisterAdmin | base/src/register_admin.php |
| admin_sidebar.dfy | AdminSidebar | base/src/includes/sidebar.php |
| user_sidebar.dfy | UserSidebar | base/Users/includes/user_sidebar.php |
| migration.dfy | Migration | migrate_mysql_to_postgres.py |
| rate_limiter.dfy | RateLimiting | rate_limiter.py |
| import_sql.dfy | ImportSql | scripts/import_sql.py |
| main_app.dfy | MainApp | main.py |
| tokens.dfy | Tokens | generate_token.py |
| zambian_features.dfy | ZambianFeatures | test_zambian_features.py |

## Model

| member | source | states |
|---|---|---|
| TaxpayersScript.EmptySearchMatchesAll | base/src/taxpayers.js:50-52 | the empty query occurs in every lowercased ID, so it matches every row |
| TaxpayersScript.SearchIgnoresQueryCase | base/src/taxpayers.js:50-52 | the query is lowercased before the substring tests, so its case never changes which rows match |
| TaxpayersScript.BandsPartition | base/src/taxpayers.js:143-151 | every integer score is admitted by exactly one of excellent, good, fair and poor |
| TaxpayersScript.AllFiltersPassEverything | base/src/taxpayers.js:115-155 | with all five selects at 'all' every row passes |
| TaxpayersScript.SectorFilterIsSubstring | base/src/taxpayers.js:136-140 | with only the sector select set, a row passes iff the lowercased selection occurs somewhere in its lowercased sector cell |
| Query.Count | base/src/taxpayers.js:113-154 | the number of rows a condition holds for (displayed rows, checked boxes, visible alert cards) never exceeds the number of rows |
| Query.CountPositive | base/src/taxpayers.js:187-190 | the count is positive iff some row satisfies the condition, so the select-all box can be checked only while some row is displayed |
| TaxpayersScript.SelectedIds | base/src/taxpayers.js:230-241 | one ID per checked box |
| TaxpayersScript.NextDirection | base/src/taxpayers.js:257-258 | the new direction is 'asc' or 'desc', and 'desc' exactly when the header was unset or 'asc', so a first click sorts descending |
| TaxpayersScript.RiskRank | base/src/taxpayers.js:296-300 | the riskOrder value of the chip class: critical 4, high 3, medium 2, low 1, and 0 exactly for any other class (inherited object keys aside, see Left out), so the risk sort orders critical > high > medium > low > unknown |
| TaxpayersScript.UnknownColumnKeepsOrder | base/src/taxpayers.js:304-305 | an unknown data-sort compares every pair equal, so the stable sort keeps the display order |
| TaxpayersScript.RelativeAge | base/src/taxpayers.js:704-714 | 'just now' iff under 60 whole seconds; otherwise a count of at least 1 whose unit brackets the elapsed seconds (under 60 minutes, 24 hours, 30 days, else months) |
| TaxpayersScript.RelativeTime | base/src/taxpayers.js:709 | the text is 'just now' iff fewer than 60 whole seconds have passed |
| TaxpayersScript.TaxpayerTable.constructor | base/src/taxpayers.js:1-11 | rows and headers as rendered, display order the row order, filters at 'all', search box empty, nothing selected |
| TaxpayersScript.TaxpayerTable.PerformSearch | base/src/taxpayers.js:41-61 | each row is shown iff it matches the query, nothing else about a row changes, and the returned count is the number shown |
| TaxpayersScript.TaxpayerTable.ResetSearch | base/src/taxpayers.js:63-66 | every row is shown and nothing else changes |
| TaxpayersScript.TaxpayerTable.OnSearchInput | base/src/taxpayers.js:22-32 | the clear button shows iff the trimmed query is non-empty; then rows match the trimmed query, otherwise all rows show |
| TaxpayersScript.TaxpayerTable.OnClearSearch | base/src/taxpayers.js:34-38 | the box is emptied, the button hidden and every row shown |
| TaxpayersScript.TaxpayerTable.ApplyFilters | base/src/taxpayers.js:105-156 | each row is shown iff it passes every non-'all' filter, recomputed from scratch; the count is the number shown |
| TaxpayersScript.TaxpayerTable.OnFilterChange | base/src/taxpayers.js:91-94 | the new selections take effect and the rows are refiltered, so the last action wins |
| TaxpayersScript.TaxpayerTable.OnResetFilters | base/src/taxpayers.js:97-102 | all five selects back to 'all', and every row is shown |
| TaxpayersScript.TaxpayerTable.UpdateBulkBar | base/src/taxpayers.js:220-228 | the bar shows iff some box is checked, and the count text is then that number; otherwise the text is left as it was |
| TaxpayersScript.TaxpayerTable.OnSelectAllChange | base/src/taxpayers.js:172-182 | only displayed rows take the new state; hidden rows keep theirs; the bar shows iff some box ends checked, and the count text is then that number, otherwise it is left as it was |
| TaxpayersScript.TaxpayerTable.OnRowCheckboxChange | base/src/taxpayers.js:185-195 | only the clicked box changes; the bar shows iff some box is checked, and the count text is then that number, otherwise it is left as it was; select-all ends checked iff some row is displayed and every displayed row is checked |
| TaxpayersScript.TaxpayerTable.OnDeselectAll | base/src/taxpayers.js:198-202 | every box and select-all cleared, and the bar hidden with its count text left as it was |
| TaxpayersScript.TaxpayerTable.GetSelected | base/src/taxpayers.js:230-241 | the IDs of the checked rows in checkbox order, as many as there are checked boxes |
| TaxpayersScript.TaxpayerTable.OnHeaderClick | base/src/taxpayers.js:251-327 | the clicked header toggles (unset counts as 'asc'), every other header is cleared, and the display order is the stable sort of the old order by the column key in the new direction, still a permutation of the rows |
| Sorting.Codes | base/src/taxpayers.js:310-318 | a string's key is its character codes, position by position |
| Sorting.LexIrreflexive | base/src/taxpayers.js:319-325 | no key is before itself |
| Sorting.LexTransitive | base/src/taxpayers.js:319-325 | the key order is transitive |
| Sorting.LexTotal | base/src/taxpayers.js:319-325 | any two distinct keys are ordered one way or the other |
| Sorting.PrecedesIrreflexive | base/src/taxpayers.js:319-325 | under either direction no key must come before itself |
| Sorting.PrecedesTransitive | base/src/taxpayers.js:319-325 | under either direction "must come before" is transitive |
| Sorting.DescendingIsReverse | base/src/taxpayers.js:319-325 | the descending comparator is exactly the ascending one with its arguments swapped |
| Sorting.SortBy | base/src/taxpayers.js:271 | sorting keeps the length |
| Sorting.SortByPermutes | base/src/taxpayers.js:271 | sorting only reorders: the result is a permutation of the input |
| Sorting.SortBySorted | base/src/taxpayers.js:271-325 | no element of the result must come before an earlier one |
| Sorting.SortByStable | base/src/taxpayers.js:271-325 | elements with equal keys keep their input order, as the stable array sort does |
| Sorting.ConstantKeyKeepsOrder | base/src/taxpayers.js:304-305 | when every key is equal, the sort returns the input unchanged |
| AlertsScript.TimeFilterIgnored | base/src/alerts.js:21-35 | the time select never changes whether a card matches |
| AlertsScript.ResetMatchesAll | base/src/alerts.js:31-33 | with every select at 'all' every card matches |
| AlertsScript.UppercaseTypeValueMatchesNothing | base/src/alerts.js:31 | a type value with an upper-case letter is compared unlowered with the lowercased type text, so it matches no card |
| AlertsScript.MarkedRead | base/src/alerts.js:99-104 | after marking, 'unread' is gone, 'read' is present, no other class changes, the button is marked and the indicator dimmed when there is one |
| AlertsScript.MarkedReadIdempotent | base/src/alerts.js:99-104 | marking a card read twice gives the same card as marking it once |
| AlertsScript.CountVisibleZero | base/src/alerts.js:44 | the count is zero iff every card is hidden, which is when the empty state shows |
| AlertsScript.ApplyVisibility | base/src/alerts.js:29-44 | each card's display set from the test and nothing else about it changed; the count is zero iff every card ends hidden |
| AlertsScript.AlertFeed.constructor | base/src/alerts.js:1-6 | the cards and buttons as rendered, the selects at 'all', no empty state and no toast |
| AlertsScript.AlertFeed.FilterAlerts | base/src/alerts.js:21-45 | each card shown iff it matches type, severity and status; the empty state shown iff no card is |
| AlertsScript.AlertFeed.OnFilterChange | base/src/alerts.js:47-49 | the new selections take effect and every card is refiltered |
| AlertsScript.AlertFeed.OnReset | base/src/alerts.js:51-54 | all four selects to 'all', every card shown, the empty state only when there are no cards |
| AlertsScript.AlertFeed.OnViewClick | base/src/alerts.js:66-84 | exactly the clicked button is active; a card shows iff the view is 'all', or 'unread' and the card is unread; the empty state iff none shows |
| AlertsScript.AlertFeed.ActivateOnly | base/src/alerts.js:67-68 | every button loses 'active' and then only the clicked one has it |
| AlertsScript.AlertFeed.ShowView | base/src/alerts.js:70-83 | each card shown iff the view shows it; the empty state iff none is |
| AlertsScript.AlertFeed.OnMarkRead | base/src/alerts.js:94-107 | only the clicked card changes, to its marked-read form, with one toast; a card without the button has no handler |
| AlertsScript.AlertFeed.OnLoadMore | base/src/alerts.js:118-123 | two toasts in order and the feed untouched |
| ReportsScript.ParseReportButton | base/src/reports.js:20-22 | the format is CSV iff the value contains 'csv', else PDF; when '-csv' occurs the type is the value with its first occurrence cut out, and otherwise the value itself |
| ReportsScript.ReportName | base/src/reports.js:30-41 | a type in the table gets its title, and 'Report' is given exactly for a type the table does not list (inherited object keys aside, see Left out) |
| ReportsScript.CsvButtonOfType | base/src/reports.js:20-22 | for a type without '-', the button '<type>-csv' asks for that type as CSV |
| ReportsScript.PdfButtonOfType | base/src/reports.js:20-22 | a value without 'csv' asks for itself as PDF |
| ReportsScript.DashCsvContainsCsv | base/src/reports.js:21-22 | whenever a '-csv' is removed the format is CSV |
| ReportsScript.RangeText | base/src/reports.js:170 | the range text is empty iff no range or an empty one was given, and otherwise ' (N months)' |
| ReportsScript.DownloadFileName | base/src/reports.js:222 | the file name is the collapsed report name, then '.' and the lowercased format, with no white space before the '.' |
| ReportsScript.DownloadFileNameJoinsWords | base/src/reports.js:222 | two words around a white-space run of any length are joined by exactly one '_' in the file name |
| ReportsScript.DownloadFileNameKeepsPlainName | base/src/reports.js:222 | a name without whitespace is kept as it is |
| ReportsScript.FormatFileSize | base/src/reports.js:266-270 | the unit is B below 1024, KB below 1048576 and MB from there on, and the amount times the unit's size is the byte count |
| ReportsScript.ReportsPage.constructor | base/src/reports.js:2-9 | the data points as rendered, modal closed, nothing pending, no download and no alert |
| ReportsScript.ReportsPage.ShowGenerationModal | base/src/reports.js:114-140 | the loading title, footer hidden and modal active, with the request waiting for the progress to finish |
| ReportsScript.ReportsPage.OnReportButton | base/src/reports.js:19-24 | the modal opens on the parsed type's title and format, with no range, under the loading title and with the footer hidden |
| ReportsScript.ReportsPage.CompleteGeneration | base/src/reports.js:154-219 | with a request pending: the success title, the name followed by its range text, the format, the footer, and the download bound to the request; otherwise nothing changes |
| ReportsScript.ReportsPage.OnGenerateCustom | base/src/reports.js:53-77 | with no data point checked, one alert, and modal, title and footer stay as they were; otherwise the loading title shows, the footer is hidden and the modal opens on the typed name (or 'Custom Report'), the upper-cased format and the range |
| ReportsScript.ReportsPage.OnResetForm | base/src/reports.js:79-91 | empty name, range '12', format 'pdf', and exactly the first three data points checked |
| ReportsScript.ReportsPage.OnDownload | base/src/reports.js:212-235 | an alert naming the derived file, then the modal closes |
| ReportsScript.ReportsPage.CloseModal | base/src/reports.js:237-240 | the modal is no longer active |
| ReportsScript.ReportsPage.OnKeyDown | base/src/reports.js:107-111 | the modal ends open iff it was open and the key was not Escape |
| RiskScript.TaxpayerDataKeyedById | base/src/risk.js:126-196 | every placeholder record sits under its own id and lists at least three factors |
| RiskScript.SlotOf | base/src/risk.js:225-227 | a filled slot shows 'fas ' plus the factor's icon, its text and its impact |
| RiskScript.FindRow | base/src/risk.js:294 | None iff no row has the id; otherwise the first row in document order that has it (for ids without '"' or '\\', see Left out) |
| RiskScript.RiskPage.constructor | base/src/risk.js:5-17 | slots and rows as rendered, panel closed, scrolling free and no alert |
| RiskScript.RiskPage.UpdateFactorSlots | base/src/risk.js:219-229 | slot i takes factor i when both exist; slots beyond the factors keep their contents, factors beyond the slots are dropped |
| RiskScript.RiskPage.OpenDetailPanel | base/src/risk.js:199-234 | an id with no record changes nothing; one with a record fills the panel fields and slots from it, opens the panel and locks scrolling (inherited object keys aside, see Left out) |
| RiskScript.RiskPage.CloseDetailPanel | base/src/risk.js:237-240 | the panel is closed and scrolling restored |
| RiskScript.RiskPage.OnKeyDown | base/src/risk.js:247-251 | Escape on an open panel closes it and frees scrolling; any other case changes nothing |
| RiskScript.RiskPage.SendNudge | base/src/risk.js:289-301 | one alert naming the id; the first row with that id, if any, shows 'Nudge Sent' with class 'status-badge nudged'; no other row changes |
| RiskScript.RiskPage.OnResetFilters | base/src/risk.js:327-333 | risk level, sector and status back to 'all', and the period to '30' |
| AdminScript.RiskColour | base/src/script.js:32-43 | a colour exactly for the trimmed lowercased levels high, medium and low, each its own colour |
| Days.Weekday | base/src/script.js:101 | the getDay number of a day, below 7, with 1 January 1970 a Thursday (4); shared with the dashboard's week arithmetic |
| Days.WeekdayNext | base/src/script.js:101 | each next day has the next weekday number, wrapping from Saturday (6) to Sunday (0) |
| AdminScript.WeekStart | base/src/script.js:100-101 | the start is a Sunday at most six days before the given day |
| AdminScript.WeekStartShift | base/src/script.js:107-119 | moving the date by whole weeks moves its week's Sunday by the same amount |
| AdminScript.WeekStartUnique | base/src/script.js:100-101 | every day of a Sunday-started week maps to that Sunday |
| AdminScript.RecipientOfBanner | base/src/script.js:176-188 | the recipient read back from a card's banner is the card's name and id |
| AdminScript.Preview | base/src/script.js:186-190 | recipient, ': ', then the trimmed message, or the placeholder when the trimmed message is empty |
| AdminScript.PreviewNamesRecipient | base/src/script.js:176-190 | after a card's Nudge button, a non-blank message previews as that card's person and id, then the trimmed message |
| AdminScript.AdminPage.constructor | base/src/script.js:28-31 | the rows, date and template options as rendered, the week range already set to the Sunday of the date and six days later (the `updateWeekRange` call on load, line 121), panel and editor hidden, no card, no log entry, no alert |
| AdminScript.AdminPage.ColourRiskCells | base/src/script.js:28-45 | every row's third cell is coloured by its own level; no cell is added, dropped or moved |
| AdminScript.AdminPage.UpdateWeekRange | base/src/script.js:99-105 | the range starts on the Sunday of the current date's week and ends six days later, so it contains the date |
| AdminScript.AdminPage.OnPrevWeek | base/src/script.js:107-112 | the date moves back seven days and the range to the previous week |
| AdminScript.AdminPage.OnNextWeek | base/src/script.js:114-119 | the date moves on seven days and the range to the next week |
| AdminScript.AdminPage.LoadComplianceAlerts | base/src/script.js:156-170 | the container holds exactly the sample alerts, in order, whatever it held before |
| AdminScript.AdminPage.OnTogglePanel | base/src/script.js:139-142 | the panel's hidden state flips and the cards are reloaded |
| AdminScript.AdminPage.OnClosePanel | base/src/script.js:144-146 | the panel is hidden |
| AdminScript.AdminPage.OnCardNudge | base/src/script.js:173-181 | the banner names the card's person and id, the editor shows, and message, template and preview are reset |
| AdminScript.AdminPage.OnTemplateChange | base/src/script.js:191-196 | a non-empty template replaces the message, an empty one leaves it; the preview is recomputed either way |
| AdminScript.AdminPage.OnMessageInput | base/src/script.js:197 | the message is the typed text and the preview is recomputed from it |
| AdminScript.AdminPage.OnSend | base/src/script.js:200-222 | a blank trimmed message raises one alert and changes nothing else; otherwise one entry with date, recipient and trimmed message goes first in the log and the editor is hidden and cleared |
| AdminScript.AdminPage.ClearEditor | base/src/script.js:215-217 | the editor hidden, the message empty and the preview back to the placeholder |
| AnalyticsScript.SelectorValue | base/src/assets/analytics.js:26-40 | a present attribute is used as it is, and a missing one becomes the text 'null' inside the selector |
| AnalyticsScript.FindWidget | base/src/assets/analytics.js:40 | None iff no widget carries the name; otherwise the first widget in document order that does (for names without '"' or '\\', see Left out) |
| AnalyticsScript.NamesKept | base/src/assets/analytics.js:35-40 | clearing 'active' first does not change which widget the selector finds |
| AnalyticsScript.AnalyticsPage.constructor | base/src/assets/analytics.js:4-14 | the buttons, widgets and sidebar items as rendered, and no resize event yet |
| AnalyticsScript.AnalyticsPage.OnNavClick | base/src/assets/analytics.js:25-48 | exactly the clicked button is active; exactly the first widget named by its data-widget is active, if there is one; one resize event iff a widget was found |
| AnalyticsScript.AnalyticsPage.ActivateButton | base/src/assets/analytics.js:29-32 | every button loses 'active' and then only the clicked one has it |
| AnalyticsScript.AnalyticsPage.ActivateWidget | base/src/assets/analytics.js:35-45 | only the first widget with the name, if any, ends active, and a resize event is sent iff there was one |
| AnalyticsScript.AnalyticsPage.OnSidebarClick | base/src/assets/analytics.js:205-218 | exactly the clicked sidebar item is active |
| TaxCalculator.PayeTaxable | base/script.js:53-54 | the taxable income is the income less the 4800 relief, or 0 when that would be negative |
| TaxCalculator.PayeTaxIsTable | base/script.js:57-71 | the if/else chain equals the reading "formula of the highest threshold exceeded" of the seven-bracket table |
| TaxCalculator.BracketPrefix | base/script.js:57-71 | each bracket added to the table takes over exactly above its own threshold |
| TaxCalculator.PayeTax | base/script.js:57-71 | the calculatePAYE bracket chain: never negative, nothing due exactly up to 18000 of taxable income, and above that at most 37.5% of it |
| TaxCalculator.PayeTaxNotMonotone | base/script.js:67-70 | at 24000 the tax is 750 but at 24001 it is 600.15: the chain is not monotone |
| TaxCalculator.CalculateTax | base/script.js:37-81 | no result iff the parsed income is missing (NaN) or not positive; otherwise the monthly tax is a twelfth of the annual, PAYE applies the relief and brackets, company is 30%, VAT 16%, and any other type pays 0 on the whole income |
| TaxCalculator.FlatTaxesBelowIncome | base/script.js:72-79 | company tax and VAT on a positive income are positive and below the income |
| TaxCalculator.BlankIsEmptyTrim | base/script.js:103 | a field is blank exactly when its trimmed value is empty |
| TaxCalculator.CalculatorPage.constructor | base/script.js:29-33 | no result, the result panel hidden, no alert, and the form's inputs as rendered |
| TaxCalculator.CalculatorPage.OnCalculate | base/script.js:37-94 | a refused income raises one alert and changes nothing else; otherwise the result is shown |
| TaxCalculator.CalculatorPage.ValidateForm | base/script.js:97-112 | every blank required field is flagged and every other one cleared; the form is valid iff none is blank |
| BusinessDashboard.FindBusiness | base/businesses/business_dashboard.php:14-16 | None iff no business row has the session's id; otherwise a row of the table with that id |
| BusinessDashboard.Load | base/businesses/business_dashboard.php:5-22 | without business_id in the session, or with a stale id, the page redirects to the business login; otherwise it shows the figures of the business row with the session's id |
| BusinessDashboard.Figures | base/businesses/business_dashboard.php:28-67 | the widgets and lists of one business: counts no larger than their tables, at most five recent returns and notices |
| BusinessDashboard.RecentReturnsScoped | base/businesses/business_dashboard.php:53-58 | at most five recent returns, each the business's own and from the table, latest filing-or-due date first |
| BusinessDashboard.RecentActivitiesScoped | base/businesses/business_dashboard.php:62-68 | at most five recent notices, each the business's own and from the table, newest first |
| BusinessDashboard.OtherBusinessesIgnored | base/businesses/business_dashboard.php:31-67 | rows of other TPINs added to any of the five tables (returns, assessments, employees, payments, notices) change none of the figures |
| BusinessDashboard.EmptySumsAreZero | base/businesses/business_dashboard.php:36-50 | with no rows of its own the outstanding balance, overdue count and overdue amount are 0, as COALESCE makes them |
| BusinessDashboard.StatusBadgeClass | base/businesses/business_dashboard.php:70-77 | 'status-completed' for filed or completed, 'status-overdue' for overdue, 'status-pending' for anything else including a null status, case-insensitively |
| BusinessDashboard.BadgeClassKnown | base/businesses/business_dashboard.php:70-77 | the badge class is always one of the three |
| BusinessDashboard.Period | base/businesses/business_dashboard.php:608-617 | the month and year of a non-empty filing date, else of a non-empty due date, else 'Year ' and the tax year, else 'N/A' |
| BusinessDashboard.RenderReturn | base/businesses/business_dashboard.php:606-636 | type and status default to 'N/A' and 'Pending' only when null; the due date or '—'; the badge of the shown status; 'File' exactly when the status is pending case-insensitively, else 'View' |
| BusinessDashboard.MissingStatusIsPending | base/businesses/business_dashboard.php:620-633 | a return with no status gets the pending badge and the 'File' button |
| BusinessDashboard.EmptyStatusViews | base/businesses/business_dashboard.php:620-633 | an empty status string gets the pending badge yet the 'View' button |
| BusinessDashboard.RenderReturns | base/businesses/business_dashboard.php:603-642 | the placeholder row iff there is no return; otherwise one row per return, in order |
| BusinessDashboard.RenderNotice | base/businesses/business_dashboard.php:656-664 | the notice type, or 'Activity' when it is null, and its creation time |
| BusinessDashboard.RenderActivities | base/businesses/business_dashboard.php:654-673 | the single placeholder item iff there is no notice; otherwise one item per notice, in order |
| BusinessDashboard.Avatar | base/businesses/business_dashboard.php:518 | the first two characters of the name (fewer if it is shorter), each upper-cased |
| Query.Where | base/businesses/business_dashboard.php:31-50 | the filtered rows satisfy the condition, every satisfying row is kept, and nothing is invented |
| Query.WhereAppend | base/businesses/business_dashboard.php:31-50 | filtering a concatenation filters each part |
| Query.WhereIgnoresOthers | base/businesses/business_dashboard.php:31-50 | rows that fail the condition add nothing, before or after the table |
| Query.WhereNone | base/businesses/business_dashboard.php:36-50 | when no row satisfies the condition the result is empty |
| Query.WhereAll | base/src/taxpayers.php:21-22 | when every row satisfies the condition the whole table is kept |
| Query.WhereDropsFailing | base/src/taxpayers.php:21-22 | a row failing the condition makes the count strictly smaller than the table |
| Query.WhereStricter | base/Users/compliance.php:20-26 | a stricter condition never counts more rows |
| Query.WhereDisjoint | base/src/taxpayers.php:22-24 | two conditions no row meets together split the count of their union |
| Query.First | base/businesses/business_dashboard.php:14-16 | None iff no row satisfies the condition; otherwise the first row that does |
| Query.SumOf | base/businesses/business_dashboard.php:36 | the sum of no rows is 0, and a sum of non-negative amounts is non-negative |
| Query.NullableKey | base/businesses/business_dashboard.php:56 | NULL, and only NULL, gets the empty key |
| Query.NullLastDescending | base/businesses/business_dashboard.php:56 | under DESC every value sorts before NULL |
| Query.TopN | base/businesses/business_dashboard.php:53-57 | exactly n rows when the table has more than n, and all of them otherwise |
| Query.TopNChosen | base/businesses/business_dashboard.php:53-57 | the rows come from the table, all of them when it has at most n, sorted by the key descending |
| Query.TopNKeepsGreatest | base/businesses/business_dashboard.php:53-57 | no row LIMIT leaves out has a greater key than a row it keeps |
| Sorting.Limit | base/businesses/business_dashboard.php:57 | a prefix of the table: the whole table when it has at most n rows, and exactly n rows otherwise |
| AdminStats.StatsOf | base/src/taxpayers.php:21-25 | the total counts every taxpayer and each status count is the number of rows with that status; the three together never exceed the total, and the compliance rate is active over total in percent, between 0 and 100 |
| AdminStats.StatusCountsWithinTotal | base/src/taxpayers.php:22-24 | active, dormant and suspended counts add up to at most the number of taxpayers |
| AdminStats.FullComplianceIffAllActive | base/src/taxpayers.php:25 | for a non-empty table the rate is exactly 100 if and only if every taxpayer is Active |
| AdminStats.RenderTaxpayer | base/src/taxpayers.php:224-228 | TPIN, e-mail, phone and date are HTML-escaped, while type and status only get their first letter upper-cased |
| AdminStats.Directory | base/src/taxpayers.php:220-235 | the loop renders one row per fetched taxpayer, in table order, and fetches min(n, 20) of n rows |
| AdminStats.Fetched | base/src/taxpayers.php:220 | LIMIT 20 yields all rows of a small table and exactly 20 of a larger one |
| AdminStats.TaxpayersPage | base/src/taxpayers.php:6-25 | without user_id in the session the page redirects to the admin login, and only then; otherwise it shows the admin header (with the defaults when no admin row matches), the stats and the directory |
| AdminStats.AnalysisPage | base/src/analysis.php:6-25 | the same guard, header and stats as the taxpayers page, with no directory |
| Compliance.TpinOf | base/Users/compliance.php:11-14 | None exactly when no individual has the session's id; otherwise the TPIN of a row with that id |
| Compliance.FiguresOf | base/Users/compliance.php:20-28 | the total and filed counts are the rows with the user's TPIN (and status Filed); filed never exceeds total; the rate is filed over total in percent, 0 with no returns, between 0 and 100 |
| Compliance.UnknownIndividualHasNoReturns | base/Users/compliance.php:14-28 | an id with no individual row (NULL TPIN) matches no return and shows 0, 0 and a rate of 0 |
| Compliance.OtherTaxpayersIgnored | base/Users/compliance.php:20-26 | returns of other TPINs change neither count |
| Compliance.SevenOfTen | base/Users/compliance.php:28 | an illustration only: seven filed returns out of ten give a rate of 70 (Php.RateInRange covers every input) |
| Compliance.Load | base/Users/compliance.php:5-28 | the page redirects to the login exactly when the session has no user_id; otherwise it shows the figures for the user's TPIN |
| Php.Coalesce | base/src/register.php:12-16 | `??` yields the value when it is set and the default only when it is unset or null |
| Php.CoalesceKeepsEmpty | base/src/register.php:12-16 | `??` keeps an empty string even though `empty()` counts it as missing |
| Php.IntCast | base/src/risk.php:22 | a string with no leading digits after white space and a sign casts to 0 |
| Php.IntCastOfText | base/src/risk.php:22 | text that starts with anything but a sign, a digit or white space casts to 0 |
| Php.IntCastLeadingDigits | base/src/risk.php:22 | on text that starts with a digit the cast reads the leading run of digits and ignores the rest |
| Php.IntCastSigned | base/src/risk.php:22 | white space in front is skipped and one sign is read: '-' negates the leading digits after it and '+' keeps them |
| Php.IntCastOfNatToString | base/businesses/business_dashboard.php:33 | the cast reads back the decimal text of any natural number, so a COUNT(*) column keeps its value |
| Php.Rate | base/src/taxpayers.php:25 | with no rows the rate is 0; otherwise rate × total equals part × 100 |
| Php.RateInRange | base/Users/compliance.php:28 | a part no larger than the total gives a rate between 0 and 100, and exactly 100 only when part equals total |
| AdminSession.FindAdmin | base/src/dashboard.php:11-14 | no row exactly when no admin has the session's id; otherwise a row from the table with that id |
| AdminSession.HeaderOf | base/src/dashboard.php:16-17 | the escaped name and e-mail of the admin row, or 'Admin User' and 'admin@zra.gov.zm' without one; neither contains a raw '<' |
| AdminDashboard.MondayOf | base/src/dashboard.php:155 | 'monday this week' is a Monday no more than six days before the day, so a Sunday belongs to the week of the previous Monday |
| AdminDashboard.SelectWindow | base/src/dashboard.php:146-168 | every named range ends today and starts today, on this week's Monday, on the first of the month or on the first of the year; any other value takes from and to from the query string, defaulting to the first of the month and today |
| AdminDashboard.RangeOf | base/src/dashboard.php:146 | without a range parameter the range is thisMonth, otherwise the parameter itself |
| AdminDashboard.SelectedOption | base/src/dashboard.php:210-214 | a named range marks its own option, and every other value marks Custom |
| AdminDashboard.OneOptionSelected | base/src/dashboard.php:210-214 | exactly one option of the select is marked selected, whatever the range |
| AdminDashboard.Assessments | base/src/dashboard.php:170-201 | a query that throws gives no rows, and at most 100 rows are listed |
| AdminDashboard.AssessmentsInWindow | base/src/dashboard.php:186-188 | each listed row is from the table with a start date between the bounds, newest first |
| AdminDashboard.RenderAssessment | base/src/dashboard.php:237-242 | each present column is shown as it is, and missing ones show 'AC-N/A', 'Unknown', '—', '—' and 'Zambia'; an empty start date shows '—' and any other is formatted |
| AdminDashboard.RenderAssessments | base/src/dashboard.php:234-260 | no assessments give the single empty-state row; otherwise one rendered row per assessment, in order |
| AdminDashboard.Load | base/src/dashboard.php:5-260 | the page redirects to the admin login exactly when the session has no user_id; otherwise the header is that of the signed-in admin, the window the one the range asks for, the selected option follows the range, and the table shows one rendered row per listed assessment or the empty state exactly when none is listed |
| AdminLogin.ValidationErrors | base/src/admin_login.php:17-25 | the e-mail error appears exactly when the e-mail is empty or invalid, the password error exactly when it is shorter than 8 characters, and the list is empty exactly when both checks pass |
| AdminLogin.BothMessagesJoined | base/src/admin_login.php:48 | with both checks failing, the error shown is the two messages joined by one space |
| AdminLogin.Failure | base/src/admin_login.php:34-39 | no row gives 'No account found', a missing hash gives the hash error, and a hash that does not verify gives 'Incorrect password', in that order; nothing else fails |
| AdminLogin.HandleRequest | base/src/admin_login.php:14-16 | a GET shows the empty form and leaves the session alone; a POST signs in with the trimmed e-mail and the untrimmed password |
| AdminLogin.SignIn | base/src/admin_login.php:27-46 | the result is the page's decision; a form leaves the session unchanged, while a redirect regenerates the session id and stores the first matching row's id and its name, or 'Admin' when the name is NULL |
| AdminLogin.Outcome | base/src/admin_login.php:27-49 | validation errors come first; the redirect happens exactly when validation passes and the first row for the e-mail has a hash that verifies |
| AdminLogin.NoLookupOnInvalidInput | base/src/admin_login.php:27 | with a validation error the outcome is a form whatever the table holds |
| AdminLogin.SignInNeedsVerifiedHash | base/src/admin_login.php:29-41 | a redirect implies an account row with that e-mail and a present hash that verifies |
| UserLogin.DisplayName | base/src/login.php:25 | the session name is the first name, one space, then the last name |
| UserLogin.Outcome | base/src/login.php:11-33 | an empty or '0' field gives 'Both email and TPIN are required.'; otherwise the redirect happens exactly when the first row for the e-mail verifies the TPIN, and every other case gives 'Invalid email or TPIN.' |
| UserLogin.SameMessageForUnknownEmailAndWrongTpin | base/src/login.php:22-30 | an unknown e-mail gets the same message as a wrong TPIN |
| UserLogin.OnlyFirstRowCounts | base/src/login.php:17-22 | because of LIMIT 1, a later row with the same e-mail cannot sign in when the first row does not verify |
| UserLogin.HandleRequest | base/src/login.php:7-9 | a GET shows the empty form and leaves the session alone; a POST reads the trimmed e-mail and TPIN |
| UserLogin.SignIn | base/src/login.php:11-34 | the result is the page's decision; a form leaves the session unchanged, while a redirect regenerates the id and stores the individual's id and display name |
| BusinessLogin.Outcome | base/businesses/business_login.php:11-32 | an empty or '0' field gives the required message; otherwise the redirect happens exactly when the first business with the e-mail verifies the TPIN, and anything else gives 'Invalid email or TPIN.' |
| BusinessLogin.ZeroTpinRequired | base/businesses/business_login.php:11 | a TPIN of '0' is falsy in PHP, so it is reported as missing and never looked up |
| BusinessLogin.HandleRequest | base/businesses/business_login.php:7-9 | a GET shows the empty form and leaves the session alone; a POST reads the trimmed e-mail and TPIN |
| BusinessLogin.SignIn | base/businesses/business_login.php:11-30 | the result is the page's decision; a form leaves the session unchanged, while a redirect regenerates the id and stores the business's id, name and e-mail |
| PhpSession.Session.constructor | base/src/admin_login.php:9 | a started session holds the given values, at generation 0 |
| PhpSession.Session.Regenerate | base/src/admin_login.php:41 | a new session id (the next generation) with the same values |
| PhpSession.Session.Put | base/src/admin_login.php:42-43 | the key now maps to the value and every other key is unchanged |
| Register.Field | base/src/register.php:12-16 | a missing field reads as empty; a present one is trimmed of PHP's white space |
| Register.IndividualForm | base/src/register.php:12-16 | the individual form holds the trimmed first name, last name, e-mail, TPIN and confirmation |
| Register.BusinessForm | base/src/register.php:51-54 | the business form holds the trimmed business name, e-mail, TPIN and confirmation |
| Register.FalsyTpinRejected | base/src/register.php:18 | a TPIN that is '0' or only white space is falsy, so neither form is accepted |
| Register.RegisteredIff | base/src/register.php:61-63 | the business count is positive exactly when some business row carries the TPIN |
| Register.TaxpayerOf | base/src/register.php:25-27 | the new taxpayer row carries the TPIN and e-mail, type Individual, status Active and today's date |
| Register.IndividualOf | base/src/register.php:30-32 | the new individual row carries the next id and the form's TPIN, names and e-mail |
| Register.BusinessOf | base/src/register.php:66-67 | the new business row carries the name, TPIN, e-mail and the hash of the TPIN |
| Register.Store.constructor | base/src/register.php:3 | the tables start empty and the individual id counter at 1 |
| Register.Store.HandleRequest | base/src/register.php:8-11 | a non-POST request, or an account type other than individual or business, changes nothing and reports nothing |
| Register.Store.RegisterIndividual | base/src/register.php:18-46 | a rejected form gives the one generic error and no insert; an accepted one appends all three rows and redirects to the user login, or, when a statement in the transaction throws, appends none and reports 'Error: ' and the message |
| Register.Store.RegisterBusiness | base/src/register.php:56-76 | a rejected form gives the generic error; a failing count reports the error; an existing TPIN inserts nothing yet still redirects, so the duplicate message is never seen; otherwise the business is appended and the page redirects to the business login |
| RegisterAdmin.ReadForm | base/src/register_admin.php:10-13 | name and e-mail are trimmed, the two passwords read as sent, and missing fields read as empty |
| RegisterAdmin.ValidationErrors | base/src/register_admin.php:15-18 | each of the four messages appears exactly when its check fails, the list is empty exactly when all pass, and it holds at most four messages |
| RegisterAdmin.Check | base/src/register_admin.php:15-18 | one check contributes its message exactly when it fails, and nothing more |
| RegisterAdmin.ErrorsCoOccur | base/src/register_admin.php:15-18 | the checks are independent: a blank name with a short, mismatched password reports three messages in check order |
| RegisterAdmin.Validate | base/src/register_admin.php:15-18 | the four ifs build exactly the validation list |
| RegisterAdmin.FailureMessage | base/src/register_admin.php:28-32 | SQLSTATE 23000 reports the duplicate e-mail; any other code reports 'Database error: ' and the message |
| RegisterAdmin.AdminTable.constructor | base/src/register_admin.php:4 | the table holds the given rows |
| RegisterAdmin.AdminTable.HandleRequest | base/src/register_admin.php:9-35 | a GET changes nothing; a POST with errors reports them and inserts nothing; a valid form appends exactly one admin row with the hashed password, or reports the failure message when the insert throws; success is shown exactly when there is no error and a row was added |
| RegisterAdmin.AdminTable.Register | base/src/register_admin.php:15-33 | the same outcome for the already read form |
| RiskQueue.ReadFilters | base/src/risk.php:20-23 | each missing text filter reads as 'all', and the days value is the (int) cast of the parameter or of '30' |
| RiskQueue.DefaultWindow | base/src/risk.php:22 | without a days parameter the window is 30 days |
| RiskQueue.NonNumericDays | base/src/risk.php:22 | a days value starting with a letter casts to 0, a window of today only |
| RiskQueue.WindowOf | base/src/risk.php:25-26 | the window ends today and spans exactly the given number of days |
| RiskQueue.WhereSql | base/src/risk.php:35 | the extra SQL is empty exactly when there are no conditions |
| RiskQueue.HoldsAppend | base/src/risk.php:31-33 | appending a condition with a new parameter conjoins it with the earlier conditions |
| RiskQueue.AddFilter | base/src/risk.php:31-33 | 'all' adds nothing; any other value adds its condition and the lowercased parameter, and the conditions then hold exactly when the earlier ones do and the column matches the filter case-insensitively |
| RiskQueue.BuildWhere | base/src/risk.php:28-33 | the start and end parameters are bound; there is a condition and a parameter for each filter that is not 'all' and no other, and the conditions hold on a row exactly when every filter matches it |
| RiskQueue.Queue | base/src/risk.php:37-55 | a query that throws gives an empty queue, and the queue holds at most 200 rows |
| RiskQueue.QueueMatches | base/src/risk.php:45-48 | each queued row is from the table, dated inside the window and matching every filter, and the queue runs newest first |
| RiskQueue.AllFiltersKeepWindow | base/src/risk.php:45-48 | with every filter at 'all' and no more than 200 rows in the window, every row of the window is queued |
| RiskQueue.RiskChipClass | base/src/risk.php:57-61 | 'prob-chip' exactly for critical or high in any letter case, 'risk-chip' otherwise, NULL included |
| RiskQueue.RenderRow | base/src/risk.php:196-202 | the id is 'TP-' and the audit id, the name is escaped and the chip follows the risk level |
| RiskQueue.RenderQueue | base/src/risk.php:186-210 | the badge counts the queue; an empty queue shows only 'No records found', otherwise one rendered row per queued case, in order |
| RiskQueue.TaxpayerName | base/src/risk.php:39 | the individual's first and last name when both exist, else the business name, else 'Unknown' |
| AdminSidebar.BaseName | base/src/includes/sidebar.php:3 | the basename holds no '/' |
| AdminSidebar.CurrentPage | base/src/includes/sidebar.php:2-4 | a page name set by the including page wins; otherwise the basename of PHP_SELF |
| AdminSidebar.Nav | base/src/includes/sidebar.php:13-42 | the ten links keep their hrefs and captions in menu order, and a link is active exactly when its href is the current page |
| AdminSidebar.HrefsDistinct | base/src/includes/sidebar.php:13-42 | no two links share an href |
| AdminSidebar.AtMostOneActive | base/src/includes/sidebar.php:13-42 | at most one link is active, whatever the current page |
| AdminSidebar.NoMatchNoActive | base/src/includes/sidebar.php:13-42 | a current page that is none of the hrefs leaves every link inactive |
| AdminSidebar.Footer | base/src/includes/sidebar.php:49-50 | the footer shows the admin's name and e-mail, or 'Admin User' and 'admin@example.com', HTML-escaped and so free of a raw '<' |
| UserSidebar.CurrentPage | base/Users/includes/user_sidebar.php:2-4 | a page name set by the including page wins; otherwise the basename of PHP_SELF |
| UserSidebar.ActiveFlags | base/Users/includes/user_sidebar.php:9-32 | one flag per item, set exactly when the current page equals the name the item's test compares with |
| UserSidebar.LinkedItemsActiveOnOwnPage | base/Users/includes/user_sidebar.php:13-28 | Returns, Payments, Compliance and Profile are active exactly on their own page |
| UserSidebar.DashboardNeverActiveOnDashboard | base/Users/includes/user_sidebar.php:9-11 | the Dashboard item links to dashboard.php but tests for user_dashboard.php, so on the dashboard no item is active |
| UserSidebar.LogoutNeverActive | base/Users/includes/user_sidebar.php:29-32 | Logout has no active test and is never active |
| Migration.InitialEntity | migrate_mysql_to_postgres.py:81-94 | the entity takes 'entity-' and the TPIN as id, the TPIN as tin and provisional name, the lowercased type and status, zero scores, and the taxpayer's e-mail, phone and registration date |
| Migration.FirstWithTin | migrate_mysql_to_postgres.py:102-107 | None exactly when no entity has the tin; otherwise the index of the first entity that has it |
| Migration.SetContact | migrate_mysql_to_postgres.py:102-107 | only the first entity with the tin gets the new name and e-mail; with no such entity nothing changes, and the length is kept |
| Migration.WithIndividuals | migrate_mysql_to_postgres.py:100-107 | the individuals loop keeps the number of entities |
| Migration.WithBusinesses | migrate_mysql_to_postgres.py:110-117 | the businesses loop keeps the number of entities |
| Migration.FinalEntities | migrate_mysql_to_postgres.py:78-117 | one entity per taxpayer |
| Migration.Initial | migrate_mysql_to_postgres.py:78-95 | entity i is the initial entity of taxpayer i |
| Migration.SetContactKeepsIdentity | migrate_mysql_to_postgres.py:102-107 | one patch changes at most the name and e-mail of each entity |
| Migration.PatchesKeepIdentity | migrate_mysql_to_postgres.py:99-117 | after both loops every entity still has the id, tin, type, status, scores, phone and date built from its taxpayer |
| Migration.IndividualsKeepIdentity | migrate_mysql_to_postgres.py:100-107 | the individuals loop changes names and e-mails only |
| Migration.BusinessesKeepIdentity | migrate_mysql_to_postgres.py:110-117 | the businesses loop changes names and e-mails only |
| Migration.UnmatchedKeepsTpinName | migrate_mysql_to_postgres.py:83-117 | a taxpayer no individual or business names keeps the TPIN as name and its own e-mail |
| Migration.IndividualsSkip | migrate_mysql_to_postgres.py:100-107 | an entity whose tin no individual carries is left as it was |
| Migration.BusinessesSkip | migrate_mysql_to_postgres.py:110-117 | an entity whose tin no business carries is left as it was |
| Migration.BusinessOverridesIndividual | migrate_mysql_to_postgres.py:99-117 | when an individual and a business share a TPIN, the business's name and e-mail win because its loop runs later |
| Migration.ReturnObligation | migrate_mysql_to_postgres.py:122-130 | the id is 'return-', the TPIN, '-' and the period; Filed returns are completed and all others pending; a falsy due date becomes now; the type is tax_filing at medium priority |
| Migration.PaymentObligation | migrate_mysql_to_postgres.py:138-146 | the id is 'payment-', the TPIN, '-' and the payment id; payments are always completed and high priority; a falsy payment date becomes now |
| Migration.CaseOf | migrate_mysql_to_postgres.py:155-164 | an Open audit is investigating and any other is resolved; Investigation audits are fraud investigations and the rest compliance reviews; priority is the lowercased risk level; an empty summary becomes 'Audit case for' and the type |
| Migration.Tpins | migrate_mysql_to_postgres.py:121-124 | the TPINs the returns, payments and audit-case loops look up: one per record, in record order |
| Migration.LookupMatchesTaxpayer | migrate_mysql_to_postgres.py:124 | a lookup by TPIN finds an entity exactly when some taxpayer has that TPIN |
| Migration.TransformData | migrate_mysql_to_postgres.py:72-169 | the run raises KeyError('id') exactly when some return, payment or audit case carries a taxpayer's TPIN, because entities have no 'id' key; otherwise it yields the final entities and no obligations or cases |
| Migration.LookupRaises | migrate_mysql_to_postgres.py:121-165 | a record loop raises exactly when one of its TPINs belongs to a taxpayer |
| Migration.ApplyIndividuals | migrate_mysql_to_postgres.py:100-107 | the loop computes the individuals' patch |
| Migration.ApplyBusinesses | migrate_mysql_to_postgres.py:110-117 | the loop computes the businesses' patch |
| Migration.BuildEntities | migrate_mysql_to_postgres.py:78-95 | the loop builds one initial entity per taxpayer, in order |
| Migration.UpdateFirst | migrate_mysql_to_postgres.py:102-107 | the inner loop with its break patches only the first match |
| RateLimiting.RateKey | rate_limiter.py:32 | a non-empty custom key is used as given; None or '' falls back to 'rate_limit:' and the client host |
| RateLimiting.Added | rate_limiter.py:40 | ZADD scores the member for the current second with the second, keeps every other member, and adds at most that one member |
| RateLimiting.Pruned | rate_limiter.py:43 | ZREMRANGEBYSCORE removes exactly the members scored from 0 to the cutoff and keeps the other scores |
| RateLimiting.PyMod | rate_limiter.py:61 | Python's remainder lies in [0, b) for a positive divisor and in (b, 0] for a negative one |
| RateLimiting.RetryAfter | rate_limiter.py:61 | with a positive window the retry delay is between 1 and the window |
| RateLimiting.RateLimiter.constructor | rate_limiter.py:8-19 | the limiter keeps its limit and window, and starts with no sets, expiries or handler calls |
| RateLimiting.RateLimiter.Handle | rate_limiter.py:30-66 | the key's set gets the new member and loses members older than the window; the key's expiry becomes the window; the request is allowed, and the handler called once, exactly when the count is at most the limit; otherwise a 429 with the "Too Many Requests" error, the message and the retry delay, or ZeroDivisionError for a zero window |
| RateLimiting.SameSecondCollapses | rate_limiter.py:40 | a second request within the same second adds no member |
| RateLimiting.PrunedInWindow | rate_limiter.py:43 | every non-negative score left lies after the cutoff |
| RateLimiting.CurrentRequestCounted | rate_limiter.py:40-46 | with a positive window the request just made is always counted, so the count is at least 1 |
| ImportSql.RunLength | scripts/import_sql.py:15-16 | a greedy `[…]*` run: every character inside it passes the test, and the character right after it does not |
| ImportSql.Delete | scripts/import_sql.py:15-16 | deleting matches never lengthens the text |
| ImportSql.CharsetMatch | scripts/import_sql.py:15 | a match is 'CHARACTER SET ' followed by at least one word character |
| ImportSql.CollateMatch | scripts/import_sql.py:16 | a match is 'COLLATE ' followed by word characters holding an inner underscore |
| ImportSql.EngineMatch | scripts/import_sql.py:28 | a match is 'ENGINE=' followed by at least one word character and any white space |
| ImportSql.DeleteKeeps | scripts/import_sql.py:15-37 | deleting matches adds no backslash to a text without one |
| ImportSql.ReplaceAllKeeps | scripts/import_sql.py:19-34 | replacing with backslash-free text adds no backslash |
| ImportSql.PatternInert | scripts/import_sql.py:20 | a literal pattern holding a backslash cannot occur in a backslash-free text, so replacing it changes nothing |
| ImportSql.BackslashPatternsInert | scripts/import_sql.py:20-25 | on a dump without backslashes the three regex-looking str.replace patterns do nothing |
| ImportSql.ReplaceAllCopiesPrefix | scripts/import_sql.py:19-34 | a prefix where the pattern never starts is copied through unchanged |
| ImportSql.InsideIdentifiers | scripts/import_sql.py:21 | str.replace also rewrites inside identifiers: a column named context becomes conTEXT |
| ImportSql.SinglePassDeletion | scripts/import_sql.py:31 | removing AUTO_INCREMENT is one left-to-right pass, so two halves joined by a deletion leave a new AUTO_INCREMENT behind |
| ImportSql.NewlineEnd | scripts/import_sql.py:61 | a separator's end lies after only white space and directly after a newline |
| ImportSql.TerminatorEnd | scripts/import_sql.py:61 | a separator starts with ';', continues with white space only and ends in a newline |
| ImportSql.FirstTerminator | scripts/import_sql.py:61 | the first separator at or after the position, and none before it; none at all when the result is None |
| ImportSql.SplitStatements | scripts/import_sql.py:61 | re.split always yields at least one piece |
| ImportSql.Separators | scripts/import_sql.py:61 | there is one separator fewer than pieces |
| ImportSql.SplitStep | scripts/import_sql.py:61 | the split takes the text before the first separator, then splits the rest |
| ImportSql.SplitRoundTrip | scripts/import_sql.py:61 | putting the pieces and separators back in turn gives back the dump, so the split loses nothing |
| ImportSql.Reassemble | scripts/import_sql.py:61 | the three cuts around a separator rebuild the text |
| ImportSql.SeparatorsAreTerminators | scripts/import_sql.py:61 | each separator cut out is ';' and white space ending in a newline |
| ImportSql.NewlineEndPrefix | scripts/import_sql.py:61 | a separator missing from the text is missing from any prefix |
| ImportSql.PrefixHasNoTerminator | scripts/import_sql.py:61 | the text before the first separator holds none of its own |
| ImportSql.PiecesHaveNoTerminator | scripts/import_sql.py:61 | no piece handed on still holds a separator: the split finds every one |
| ImportSql.Step | scripts/import_sql.py:64-76 | a statement yields nothing exactly when it is skipped, and at most one converted statement otherwise |
| ImportSql.ExecutedAppend | scripts/import_sql.py:64-82 | importing two parts of a dump executes the first part's statements, then the second's |
| ImportSql.ExecutedSnoc | scripts/import_sql.py:64-82 | statement k adds its own step after those of the statements before it |
| ImportSql.ExecutedCount | scripts/import_sql.py:64-82 | at most one statement is executed per piece, and none are executed exactly when every piece is skipped |
| ImportSql.ExecutedWhenNoneSkipped | scripts/import_sql.py:64-82 | with nothing skipped, piece k is executed k-th, stripped and converted |
| ImportSql.Import | scripts/import_sql.py:61-82 | the loop executes exactly the converted non-skipped pieces of the split dump, in order |
| ImportSql.Convert | scripts/import_sql.py:9-39 | the thirteen rewrites in order; as no replacement text holds a backslash, a statement without one comes out without one |
| ImportSql.HandleStatement | scripts/import_sql.py:65-76 | one pass of the loop is the statement's step: strip, the three skip tests, then the conversion |
| ImportSql.CharacterSetSkipped | scripts/import_sql.py:72 | a statement naming a character set is skipped whole, because 'CHARACTER SET ' contains 'SET ' |
| ImportSql.CommentLedSkipped | scripts/import_sql.py:70 | a piece that starts with a -- comment line is skipped whole, whatever statement follows the comment |
| MainApp.AnyContained | main.py:139 | true exactly when some listed extension occurs anywhere in the path |
| MainApp.NoCacheHeaders | main.py:135-137 | the three no-cache headers are set and every other header is kept |
| MainApp.Response.constructor | main.py:131 | the response holds the handler's headers |
| MainApp.Response.Dispatch | main.py:130-142 | the response headers after the middleware are exactly MiddlewareHeaders of the path and the headers before it |
| MainApp.Response.ServeStatic | main.py:429-436 | an HTML file, or a path whose last segment has no dot, gets the no-cache headers; any other keeps its headers |
| MainApp.MiddlewareHeaders | main.py:130-142 | API paths get the three no-cache headers, other paths naming an asset extension the one-year Cache-Control, all other paths their headers unchanged, and no header outside those three is touched |
| MainApp.SpaNoCache | main.py:429-436 | a path the static server leaves cacheable has a dot and is not an HTML file |
| MainApp.ApiNeverCachedLong | main.py:134-140 | the API rule wins: an /api/ path never gets the one-year header, even when it names a script |
| MainApp.JsonCountsAsScript | main.py:139-140 | the extension test is a substring test, so a path containing .json contains .js and is cached for a year |
| MainApp.DirectoryNotCached | main.py:432 | a path ending in '/' has an empty last segment, so it is never cached |
| MainApp.AssetKeepsHeaders | main.py:432 | a script or stylesheet with its extension in the last segment keeps the default headers |
| MainApp.Login | main.py:175-187 | only admin@example.com with admin123 signs in, with a 303 redirect to the admin dashboard; anything else re-renders the form with the error and the typed username |
| Tokens.Expiry | generate_token.py:20-23 | a given non-zero delta expires the token that long after now; no delta, or a zero one, gives thirty minutes |
| Tokens.WithExpiry | generate_token.py:19-25 | the copy of the data gains the exp claim, keeps every other claim, and adds no other claim |
| Tokens.CreateAccessToken | generate_token.py:17-27 | the token encodes exactly the data's claims plus the exp claim for the chosen expiry |
| Tokens.GenerateTestToken | generate_token.py:29-61 | the test token encodes the user type, an iat of now and an exp thirty minutes later |
| Tokens.ZeroDeltaFallsBack | generate_token.py:20 | a zero timedelta is falsy, so it produces the same token as no delta at all |
| Tokens.ClearanceLevel | generate_token.py:52 | clearance is between 1 and 3: 3 exactly for admin, 2 exactly for officer |
| Tokens.Permissions | generate_token.py:43-49 | five permissions, the four fixed ones first, with admin:access exactly for admin and user:access exactly for everyone else |
| Tokens.TestTokenData | generate_token.py:39-56 | the payload holds exactly the ten claims; the username is the type and '_user', the entity id 'ENTITY_' and the user id, the role equals the user type, and iat is now |
| Tokens.TestTokenLifetime | generate_token.py:53-59 | a test token is issued now and expires thirty minutes later, whatever the user |
| Tokens.AdminClaimsAgree | generate_token.py:48-52 | admin:access and clearance 3 go together: a token has both or neither |
| Tokens.MenuChoice | generate_token.py:74 | the choice is never empty: the stripped answer, or '1' when the answer is blank |
| Tokens.UserTypeFor | generate_token.py:76-83 | the user type is one of the four, and admin exactly when the choice is not 2, 3 or 4 |
| Tokens.MenuFallsBackToAdmin | generate_token.py:74-83 | a blank answer, or any answer other than 2, 3 or 4, gives an admin token |
| Tokens.MenuIgnoresSpaces | generate_token.py:74 | white space around the answer does not change the user type |
| ZambianFeatures.DaySales | test_zambian_features.py:21-26 | one day holds one sale per customer, in customer order |
| ZambianFeatures.Generated | test_zambian_features.py:19-26 | the two loops produce days × customers transactions |
| ZambianFeatures.GenerateTransactions | test_zambian_features.py:19-26 | the nested loops append exactly the generated sales, day by day and customer by customer |
| ZambianFeatures.Revenue | test_zambian_features.py:29 | revenue over non-negative amounts is non-negative |
| ZambianFeatures.Customers | test_zambian_features.py:30 | every transaction's customer is in the set, whatever the type |
| ZambianFeatures.RevenueAppend | test_zambian_features.py:29 | the revenue of two runs of transactions is the sum of their revenues |
| ZambianFeatures.CustomersAppend | test_zambian_features.py:30 | the customers of two runs are the union of their customers |
| ZambianFeatures.CustomerKeyInjective | test_zambian_features.py:25 | the key names its day and customer, so two different sales never share a customer |
| ZambianFeatures.DigitsBeforeSeparator | test_zambian_features.py:25 | digits followed by '_' split back into the same two parts |
| ZambianFeatures.UnderscoreAfterDigits | test_zambian_features.py:25 | the first '_' after a run of digits sits right after the digits |
| ZambianFeatures.DayCustomerKeys | test_zambian_features.py:21-25 | a day's customers are the keys of that day |
| ZambianFeatures.DayCustomers | test_zambian_features.py:21-25 | each day brings exactly as many distinct customers as the loop count |
| ZambianFeatures.NewCustomer | test_zambian_features.py:25 | a day's next customer is not among the ones before it |
| ZambianFeatures.GeneratedCustomerKeys | test_zambian_features.py:20-25 | every customer in the month is the key of a day and customer number within the loop bounds |
| ZambianFeatures.EarlierDaysDisjoint | test_zambian_features.py:20-25 | no customer of a day bought on an earlier day |
| ZambianFeatures.GeneratedCustomers | test_zambian_features.py:30 | the month has days × customers different customers |
| ZambianFeatures.DayTotalClosedForm | test_zambian_features.py:24 | the receipts 30, 35, … of a day sum to 30n + 5n(n − 1)/2 |
| ZambianFeatures.DayRevenue | test_zambian_features.py:24-29 | a day's revenue is that arithmetic series |
| ZambianFeatures.GeneratedRevenue | test_zambian_features.py:29 | the month's revenue is days times a day's revenue |
| ZambianFeatures.GeneratedAllReceive | test_zambian_features.py:28 | every generated transaction counts as a receipt |
| ZambianFeatures.GeneratedAreSales | test_zambian_features.py:23 | every generated transaction has type receive |
| ZambianFeatures.BusinessScore | test_zambian_features.py:41-48 | no score without receipts (the division raises); otherwise between 25 and 100, and 100 exactly when all three tests pass |
| ZambianFeatures.AverageInRange | test_zambian_features.py:46 | no answer without receipts (the division raises); otherwise true exactly when the revenue lies between 30 and 500 times the number of receipts |
| ZambianFeatures.DetectBusiness | test_zambian_features.py:41-48 | the score += steps compute exactly the business score |
| ZambianFeatures.BusinessIffTwoTests | test_zambian_features.py:48-52 | with receipts, the vendor is classified a business exactly when at least two of the three tests pass |
| ZambianFeatures.TurnoverTax | test_zambian_features.py:54-61 | tax is charged exactly when the score is at least 60: 4% of the month's revenue, and twelve times that a year |
| ZambianFeatures.BuiltInSummary | test_zambian_features.py:19-30 | the script's own data gives 375 receipts from 375 different customers worth 24375 |
| ZambianFeatures.BuiltInVerdict | test_zambian_features.py:41-61 | on that data the average is 65, the score the full 100, and the tax 975 a month and 11700 a year |
| AdminScript.AdminPage.RefuseBlank | base/src/script.js:204-206 | a blank message adds exactly the one alert and changes nothing else |
| AdminScript.AdminPage.RecordSend | base/src/script.js:209-217 | the sent entry goes first in the log and the editor is cleared |
| TaxpayersScript.LowerOfUpper | base/src/taxpayers.js:50-52 | lowercasing an upper-cased text gives the lowercased text |
| TaxpayersScript.NoneChecked | base/src/taxpayers.js:199-200 | with every checkbox cleared the checked count is 0 |
| TaxpayersScript.Indices | base/src/taxpayers.js:254 | the initial row order is 0, 1, …, n − 1 |
| Sorting.Insert | base/src/taxpayers.js:271 | one insertion step lengthens the run by exactly one |
| Sorting.InsertSorted | base/src/taxpayers.js:271 | inserting into a sorted run keeps it sorted |
| Sorting.InsertPermutes | base/src/taxpayers.js:271 | inserting adds exactly the one element |
| Strings.ToLower | base/src/taxpayers.js:46-52 | toLowerCase keeps the length and lowercases each ASCII letter, leaving every other character alone |
| Strings.ToUpper | base/src/reports.js:56 | toUpperCase keeps the length and upper-cases each ASCII letter, leaving every other character alone |
| Strings.Ucfirst | base/src/taxpayers.php:226-228 | ucfirst upper-cases the first character and keeps the rest |
| Strings.ContainsIff | base/src/taxpayers.js:50-52 | the substring test holds exactly when the pattern occurs at some position |
| Strings.ContainsInner | base/src/taxpayers.js:50-52 | a text containing a pattern contains every piece of it |
| Strings.IndexOf | base/src/script.js:188 | the first position where the pattern occurs, none before it, and None exactly when it does not occur |
| Strings.ReplaceFirst | base/src/reports.js:21 | replace with a string pattern changes only the first occurrence, with no occurrence before it, and nothing when there is none |
| Strings.ReplaceAllAbsent | scripts/import_sql.py:19-34 | str.replace leaves a text without the pattern unchanged |
| Strings.ReplaceAllDeleteShrinks | scripts/import_sql.py:31-34 | deleting a pattern never lengthens the text |
| Strings.TrimLeft | base/src/taxpayers.js:23 | the stripped text is a suffix, does not start with white space, and only white space was removed |
| Strings.TrimRight | base/src/taxpayers.js:23 | the stripped text is a prefix, does not end with white space, and only white space was removed |
| Strings.Trim | base/src/taxpayers.js:23 | the result starts and ends with non-space, and is empty exactly when the text is all white space |
| Strings.JsTrim | base/src/script.js:202 | JavaScript trim is empty exactly when the text is all JavaScript white space |
| Strings.PhpTrim | base/src/register.php:12-16 | PHP trim is empty exactly when the text is all PHP white space |
| Strings.PyStrip | scripts/import_sql.py:65 | Python strip is empty exactly when the text is all Python white space |
| Strings.TrimLeftPadding | base/src/taxpayers.js:23 | white space in front is removed entirely |
| Strings.TrimRightPadding | base/src/taxpayers.js:23 | white space behind is removed entirely |
| Strings.TrimPadding | base/src/taxpayers.js:23 | trimming padded text gives back the text when it has no white space at either end |
| Strings.CollapseSpaces | base/src/reports.js:222 | after replacing each white-space run the text holds no white space |
| Strings.CollapseSpacesIdentity | base/src/reports.js:222 | a text without white space is unchanged |
| Strings.CollapseSpacesIsScan | base/src/reports.js:222 | collapsing run by run equals a character-by-character scan that writes the separator only where a run starts and copies every other character |
| Strings.ScanSkipsRun | base/src/reports.js:222 | inside a run the scan writes nothing until the first character that is not white space |
| Strings.ScanAppend | base/src/reports.js:222 | the scan of a concatenation is the scan of the first part, then the scan of the second from the state the first left |
| Strings.CollapseSpacesRun | base/src/reports.js:222 | a run made only of white space, however long, becomes exactly one separator |
| Strings.CollapseSpacesAppend | base/src/reports.js:222 | cutting the text anywhere except inside a run cuts the result at the same place, so each run collapses on its own and the other characters keep their order |
| Strings.CollapseSpacesJoinsWords | base/src/reports.js:222 | a word, a run and the rest become the word, one separator and the collapsed rest |
| Strings.LastSegment | base/src/taxpayers.js:297 | the part after the last separator: it holds no separator, is a suffix, and is the whole text when there is no separator |
| Strings.Split | base/src/taxpayers.js:297 | split yields at least one piece and no piece holds the separator |
| Strings.SplitJoin | base/src/taxpayers.js:297 | joining the pieces of a split again gives back the text |
| Strings.SplitLastIsLastSegment | base/src/taxpayers.js:297 | the last piece of a split is the text after the last separator |
| Strings.ClassList | base/src/alerts.js:32-33 | the class list holds non-empty, space-free tokens |
| Strings.Implode | base/src/risk.php:35 | implode of no parts is empty, and of one part is that part |
| Strings.NatToString | test_zambian_features.py:25 | the decimal text of a natural number is non-empty, all digits, and without a leading zero |
| Strings.NatToStringInjective | test_zambian_features.py:25 | different numbers have different decimal texts |
| Strings.IntToString | rate_limiter.py:40 | str() of an integer is non-empty and holds only digits and '-' |
| Strings.LeadingValue | base/src/taxpayers.js:144 | no value (NaN) exactly when the text does not start with a digit of the radix |
| Strings.DigitPrefix | base/src/taxpayers.js:144 | the longest prefix made only of digits |
| Strings.JsParseInt | base/src/taxpayers.js:144 | parseInt is NaN exactly when, after white space and a sign, no digit follows |
| Strings.WithSign | base/src/taxpayers.js:144 | a leading '-' negates the magnitude, and NaN stays NaN |
| Strings.SignDropped | base/src/taxpayers.js:144 | at most one leading '+' or '-' is dropped |
| Strings.ParseIntLeadingDigits | base/src/taxpayers.js:144 | on text that starts with a decimal digit and no 0x prefix, parseInt reads the leading digits |
| Strings.ParseIntOfNatToString | base/src/taxpayers.js:144 | parseInt reads back the decimal text of a number, whatever non-digit text follows |
| Strings.DigitsValueOfNatToString | base/src/taxpayers.js:144 | the digits of a number's decimal text denote that number |
| Strings.HtmlEscape | base/src/taxpayers.php:224-227 | htmlspecialchars leaves no raw <, >, double quote or single quote in its output |
| Strings.HtmlEscapePlain | base/src/taxpayers.php:224-227 | text without any of the five special characters comes through unchanged |

## Left out

- ReportsScript.ReportName: the source looks the type up in an object literal, so an inherited key such as 'constructor' or 'toString' finds a truthy prototype member and never gives 'Report'; the model's table holds only the listed keys. The page's buttons carry only listed types.
- RiskScript.RiskPage.OpenDetailPanel: `taxpayerData[id]` finds inherited object members ('constructor', '__proto__') the same way; the model's records hold only the listed TPINs, which are the only ids the page's rows carry.
- RiskScript.FindRow: the source builds a `[data-taxpayer="…"]` selector from the raw id, so an id holding '"' or '\\' makes querySelector throw or match a different id; the model compares ids exactly. The page's rows carry fixed TPINs without those characters.
- AnalyticsScript.FindWidget: the `.widget[data-widget="…"]` selector is built from the raw name in the same way, with the same effect for a name holding '"' or '\\'; the model compares names exactly. The page passes only fixed widget names.
- TaxpayersScript.RiskRank: the source reads `riskOrder[class] || 0` from an object literal, so an inherited key such as 'constructor', 'toString' or '__proto__' finds a truthy prototype member rather than 0; the model gives 0 for every class outside the table. The page's chips carry only critical, high, medium and low (base/src/taxpayers.php:385-581).
- MainApp.MiddlewareHeaders: header names are compared exactly. Starlette's headers are case-insensitive, so a handler's 'cache-control' is overwritten in the source but sits beside 'Cache-Control' in the model.
- Database access: every query is a function over given tables. Connections, prepared statements, the schemas and the setup, seed and health scripts are not part of this model.
- SQL tie order: `ORDER BY … DESC` is modelled as a stable sort, so rows with equal keys keep table order. SQL leaves their order unspecified. `LIMIT` without `ORDER BY` takes rows in table order.
- SQL string comparison: `=` is modelled as exact equality; MySQL's case-insensitive collations are not modelled. `BETWEEN` on dates compares the 'Y-m-d' texts.
- NULL columns in the taxpayer directory are not modelled; every directory column holds text.
- Foreign functions are parameters:
  - `password_hash` and `password_verify`;
  - `filter_var(…, FILTER_VALIDATE_EMAIL)`;
  - `date` and `strtotime` formatting;
  - the JavaScript `Date` calendar;
  - `jwt.encode`;
  - the clock (`time.time`, `datetime.utcnow`, `new Date()`).
- `header()` redirects and `exit` become results. The HTML around them is not rendered, apart from the rows and cells that the properties are about.
- Php.Rate: the rate is the exact quotient; PHP `round` to one or two decimals is not modelled. AdminStats.StatsOf and Compliance.FiguresOf use that exact rate.
- Php.IntCast: `(int)` of an integer too large for 64 bits, of exponent forms such as '1e3', and of leading-dot decimals is not modelled.
- Php.Coalesce: PHP's `??` also treats an unset array index and a NULL value alike, and both are `None` here.
- Strings: case mapping, white space, `\s`, `\w`, `strlen` and `substr` are modelled on characters with ASCII rules. Unicode case mapping, multibyte byte counts and Python's Unicode `\s`/`\w` are not modelled.
- Strings.HtmlEscape: only the five characters replaced under ENT_QUOTES are escaped; invalid UTF-8 handling is not modelled.
- AdminSidebar.BaseName: Windows path separators are not handled.
- Floating point: JavaScript and Python arithmetic is exact `real` or `int`. `toFixed`, `toLocaleString`, `number_format` and the `:,.2f` formats are not modelled, and the TaxCalculator results are unrounded.
- TaxpayersScript: a compliance score that `parseInt` reads as NaN is `None`, which passes every band. The source's comparator returns 0 between NaN and every other value, so it is inconsistent, and the order `Array.prototype.sort` then produces depends on the engine. The model fixes one order instead: a NaN score gets the empty key, so it sorts first in ascending order. JavaScript's `Date` parsing of the last-activity text is a parameter.
- Browser presentation: Chart.js charts, clocks, `setInterval`/`setTimeout`, toasts, CSS, navigation alerts and the live clock of base/src/script.js:4-26, and the mobile menu, smooth scroll and card hover effects of base/script.js are not part of this model. Alert and console texts are kept only where a property names them.
- ReportsScript: the random progress of the report modal and the generated file's size are not modelled.
- RiskScript: the simulated real-time risk updates, which are disabled in the source, and the filter logging are not modelled.
- DOM presence: elements a script expects but a page lacks, such as the bulk-action bar of taxpayers.js, are assumed present. Rows and cards are records in a `seq`.
- RateLimiting.RateLimiter.Handle: one request at a time. The Redis pipeline's atomicity across concurrent requests, and key expiry as time passes, are not modelled. The expiry is recorded, not applied.
- Migration: the MySQL extraction, the async Postgres inserts and the migration report are I/O and not part of this model. Because every matching lookup raises, the obligation and case lists are never filled; their per-record mappings are modelled as functions.
- ImportSql: reading the dump file, the SQLite connection, `cursor.execute` and its error printing are not part of this model. The model yields the statements that reach `execute`.
- MainApp: the app's routing, template rendering, static mounts and debug routes are not part of this model. Template auto-escaping of the echoed username is not modelled.
- Tokens: datetimes are whole seconds since the epoch, and microseconds are not modelled. The generated user id's timestamp and the console output of the menu are not modelled.
- ZambianFeatures: the USSD, language and SMS sections of the script only print fixed text and are not part of this model. The average uses an exact real division.
- Register.Store.HandleRequest: its contract states only that other methods and account types change nothing. The two branches are stated by Register.Store.RegisterIndividual and Register.Store.RegisterBusiness, which it calls.
- Register: a rolled-back individual insert keeps the consumed AUTO_INCREMENT id, as MySQL does. The PDOException message text is a parameter.
- RegisterAdmin.FailureMessage: PHP's loose `==` between the string SQLSTATE and 23000 is modelled as equality with '23000'.
- Redis utilities, token scripts other than generate_token.py, the network and auth-storage client scripts, and the static pages (alerts.php, reports.php, the user dashboard, payments, filings, profile and the header includes) are not part of this model.
