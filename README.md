# Crystal Nexus core, modelled in Dafny

Crystal Nexus is a multi-tenant sales and finance CRM-ERP written in Flask. Each tenant's
requests are routed, by subdomain, to that tenant's own database; a separate platform
registry lists the tenants. This project models the parts of the application that make
decisions, and proves what those decisions guarantee:

- **Quote pricing** (`Pricing`). Line amounts follow the billing-cycle multiplier (ONETIME and
  MONTHLY ×1, HALF_YEARLY ×6, ANNUAL ×12). Subtotal, discount and total follow, and Indian GST
  is split into CGST+SGST (same state) or IGST (different states). Recalculating is idempotent.
- **Sequential quote approval** (`Approvals`, `Quotes`):
  - matching of approval rules by amount;
  - one approval row per active step, at most one row PENDING and ahead of every WAITING row;
  - approve and reject decisions;
  - the quote lifecycle: edit lock, versions, sending, proposal confirmation, and PI and
    invoice requests;
  - the checks on rule configuration.
- **Document chain**:
  - proforma invoices created from a quote (`Proforma`);
  - invoices created from a PI (`Invoicing`);
  - the payment ledger, whose non-rejected payments never exceed the invoice total (`Payments`);
  - project margins (`Projects`).
- **Tenant routing and sidebar** (`Tenancy`, `Sidebar`):
  - host to slug, and slug to tenant engine;
  - the three-way bind precedence;
  - tenant expiry;
  - the permission filter on the sidebar.
- **Team reach, KPIs and reports** (`Team`, `Admin`, `Reports`):
  - walks down the reporting tree that terminate on cycles;
  - follow-up and closure KPIs;
  - cluster master checks;
  - the month window, run-rate status, aging buckets and margin flags.
- **Masters** (`Leads`, `Clients`, `UserMaster`, `Pipeline`, `Companies`, `Platform`):
  - lead visibility, assignment and import;
  - client branch and contact invariants, and document checks;
  - the user deactivation guard and password reset;
  - pipeline creation, moves and the stage history;
  - company and branch uniqueness;
  - tenant registry validation, including the compensating delete when provisioning fails.

Shared modules give Python's string and number conversions (`Text`, `Numbers`) and the
Gregorian calendar (`Calendar`) on ASCII text and day numbers.

Modelling conventions:

- Money (`Decimal`) is `real`, which is exact.
- Dates are day numbers.
- The clock, the current user and everything computed outside the handler are parameters.
  This covers password hashes, secure file names, upload sizes and provisioning results.
- A database table is a sequence of rows in id order, and a new row gets the last id + 1.
- A handler that returns before it commits saves nothing. A unique constraint that fails at
  commit is an outcome that saves nothing.
- A handler whose writes build on each other is a class method. Its `ensures` tie the outcome
  to a pure decision function of the old state, and state the whole new state. The properties
  are lemmas about those decision functions, plus the invariant that the class's `Valid`
  keeps.

Two places where the code does something different from what it evidently intends; the
model follows the code:

- `request_approval` deletes and commits the old approval rows before it discovers that a
  matched rule has no active steps (app/quotes/routes.py:574-588). The quote status does not
  change.
- `edit_quote` first sets `is_gst_applicable` for INR quotes only, then overwrites it
  unconditionally (app/quotes/routes.py:383-393). Non-INR quotes still get zero tax, because
  of the currency check (app/quotes/routes.py:63).

## Model

| member | source | states |
|---|---|---|
| Accounts.PermCodes | app/__init__.py:175-178 | no user or a user without a role has no permission codes |
| Accounts.PermCodesAgreeWithHasPerm | app/models.py:125-128 | the sidebar's code set and `User.has_perm` agree on every code |
| Accounts.CheckPassword | app/models.py:120-123 | a password is accepted only when a hash is stored and the hash library accepts it |
| Team.DirectReportsSpec | app/admin/routes.py:29-33 | a user is a direct report of m exactly when a profile row names m as their reporting manager |
| Team.EnqueueUnseen | app/admin/routes.py:34-37 | the inner loop marks every row seen and appends exactly the ids not seen before, keeping the queue's prefix |
| Team.TeamUserIds | app/admin/routes.py:22-38 | the breadth-first walk returns exactly the users below the manager by reporting links (plus the manager when include_self), and terminates on cycles |
| Team.LeadTeamUserIds | app/leads/routes.py:24-40 | the stack walk of the leads module returns exactly the users below the manager, without the manager unless a cycle leads back |
| Team.PushAll | app/leads/routes.py:37-39 | every child is marked seen and pushed in order |
| Team.Unseen | app/leads/routes.py:36 | the collected children are exactly the rows not yet seen |
| Team.ManagerInOwnTeamOnlyOnCycle | app/admin/routes.py:23-24 | without include_self the manager is in their own team exactly when a reporting cycle leads back to them |
| Team.DirectReportsInTeam | app/admin/routes.py:29-37 | every direct report of the manager is in the team |
| Team.TeamClosed | app/admin/routes.py:26-37 | the team is closed under reporting: a report of a member below the manager is a member |
| Pricing.Mult | app/quotes/routes.py:150-157 | every billing cycle multiplies the line amount by at least 1 |
| Pricing.CycleOf | app/quotes/routes.py:150-157 | a name selects the cycle it spells, and no cycle when no cycle has that name |
| Pricing.CycleFromKey | app/quotes/routes.py:160-162 | an upper-cased name selects its cycle, else ONETIME when no cycle has that name |
| Pricing.NormCycleSpec | app/quotes/routes.py:160-162 | `_norm_cycle` gives the cycle the trimmed upper-cased value names, else ONETIME |
| Pricing.NormCycleOfName | app/quotes/routes.py:160-162 | a stored cycle name normalises back to the same cycle |
| Pricing.NormCycleIdempotent | app/quotes/routes.py:160-162 | normalising an already normalised cycle changes nothing |
| Pricing.NormCycleOfStripped | app/quotes/routes.py:160-162 | any value that trims to "annual" normalises to ANNUAL |
| Pricing.NormCycleUnknown | app/quotes/routes.py:160-162 | every value that, trimmed and upper-cased, spells no cycle falls back to ONETIME |
| Pricing.RecalcItem | app/quotes/routes.py:168-178 | recalculating an item keeps its name, qty, rate and order and always leaves a valid cycle name |
| Pricing.RecalcItems | app/quotes/routes.py:168-178 | recalculation neither adds nor drops items |
| Pricing.RecalcItemIdempotent | app/quotes/routes.py:168-178 | recalculating an item twice equals recalculating it once |
| Pricing.RecalcItemsIdempotent | app/quotes/routes.py:168-178 | recalculating the item list twice equals recalculating it once |
| Pricing.SumAmountsNonNegative | app/quotes/routes.py:166-181 | items with no negative amount give a non-negative subtotal |
| Pricing.TaxableBase | app/quotes/routes.py:66-68 | the taxable base is subtotal minus discount clamped at zero |
| Pricing.CalculateTax | app/quotes/routes.py:55-101 | total tax is cgst + sgst + igst; cgst equals sgst; never both intra- and inter-state; zero when untaxed; 18% of the clamped base when taxed |
| Pricing.GstSplit | app/quotes/routes.py:86-98 | same state: CGST and SGST at 9% each and no IGST; different states: IGST at 18% and no CGST |
| Pricing.RecalcIdempotent | app/quotes/routes.py:165-194 | `_recalc_quote` is idempotent on items and on all totals |
| Pricing.TotalWithGst | app/quotes/routes.py:182-192 | a taxed quote's total is subtotal − discount + 18% of the clamped base, and total_amount equals total |
| Pricing.ForeignCurrencyUntaxed | app/quotes/routes.py:61-64 | a non-INR quote carries no tax whatever its GST flag and states |
| Approvals.MatchingRules | app/quotes/routes.py:201-214 | the matched rules are exactly the active rules whose range holds the total |
| Approvals.MatchingRulesOrdered | app/quotes/routes.py:208-213 | the matched rules keep the (sort_order, id) order |
| Approvals.MatchingRuleInterval | app/quotes/routes.py:204-212 | a bounded active rule matches exactly the totals in [min, max] |
| Approvals.ActiveStepsOf | app/quotes/routes.py:581-584 | a rule's step list is exactly its active steps |
| Approvals.NewRow | app/quotes/routes.py:591-600 | each new approval row is WAITING, numbered by the global step, and copies the step's approver role and user |
| Approvals.RowsFor | app/quotes/routes.py:590-601 | one row per step of the rule |
| Approvals.PlanShape | app/quotes/routes.py:577-605 | the request fails exactly when some matched rule has no active step; otherwise at least one row per rule, numbered consecutively, all WAITING |
| Approvals.PlanFailsOnStepless | app/quotes/routes.py:577-588 | the request fails exactly when some matched rule has no active step; otherwise it makes at least one row per rule |
| Approvals.PlanRowsFromSteps | app/quotes/routes.py:577-601 | every planned row comes from an active step of a matched rule, with that step's approvers |
| Approvals.PlanRowSource | app/quotes/routes.py:590-601 | the i-th planned row is the new row of an active step of a matched rule, numbered start + i + 1 |
| Approvals.FirstWaiting | app/quotes/routes.py:228-235 | the row picked is WAITING and precedes every other WAITING row in (step_order, id) order; none exactly when no row waits |
| Approvals.Activate | app/quotes/routes.py:228-235 | activation keeps the number of rows |
| Approvals.Decide | app/quotes/routes.py:691-695 | a decision keeps the number of rows |
| Approvals.CancelOpen | app/quotes/routes.py:697-700 | after a rejection's bulk update no row is WAITING or PENDING |
| Approvals.StartedRequestIsSequential | app/quotes/routes.py:609-615 | a freshly started request has its first row PENDING and all others WAITING |
| Approvals.FirstWaitingIsLowest | app/quotes/routes.py:228-235 | on numbered rows the first WAITING row is the lowest-positioned WAITING row |
| Approvals.ApproveKeepsSequential | app/quotes/routes.py:710-720 | approving the PENDING row keeps at most one PENDING row, ahead of every WAITING one |
| Approvals.ApproveClosesOneRow | app/quotes/routes.py:691-716 | each approval closes exactly one open row, so a request of N rows ends after N approvals |
| Approvals.RejectClosesAll | app/quotes/routes.py:691-705 | a rejection leaves the rejected row REJECTED and no row open |
| Approvals.NoneOpenCount | app/quotes/routes.py:712-716 | "no open rows" is the same as an open-row count of zero |
| Approvals.RoleHolderMayActOnUserStep | app/quotes/routes.py:217-225 | a holder of the row's role may act even on a row that names another user; a different role may not |
| Approvals.CanActOnRequiresAssignment | app/quotes/routes.py:217-225 | a user who is not the named approver and has no role cannot act |
| Approvals.CheckRuleForm | app/quotes/routes.py:1111-1127 | an accepted rule has a non-blank name and min ≤ max when max is given; a blank name is refused first, otherwise only a min above a given max is refused; the stored min is `_d(min, 0)` and the max is NULL exactly for a blank field, else `_d` of the trimmed field |
| Approvals.AcceptedRuleMatchesSomething | app/quotes/routes.py:1124-1127 | an accepted rule's range is non-empty: it matches its own minimum |
| Approvals.StepApprover | app/quotes/routes.py:1151-1160 | a valid step stores a role or a non-zero numeric user |
| Approvals.StepUses | app/quotes/routes.py:1195 | the count of approval rows naming the step is 0 exactly when no row names it |
| Approvals.RuleUses | app/quotes/routes.py:1224 | the count of approval rows naming the rule is 0 exactly when no row names it |
| Approvals.DeleteStep | app/quotes/routes.py:1191-1203 | an unknown id is not found; a known step is deleted exactly when no approval row names it, and then the table is the old one without that step; a refused delete changes nothing |
| Approvals.DeleteRule | app/quotes/routes.py:1220-1234 | an unknown id is not found; a known rule is deleted exactly when no approval row names it, and then the rule and all its steps leave the tables (the cascade of app/models.py:690-693); a refused delete changes nothing |
| Approvals.StoredPlanPinsStepsAndRules | app/quotes/routes.py:1191-1234 | while a request's stored rows stay in the approval table, deleting any step or rule one of them was made from is refused as in use |
| Quotes.ApplyForm | app/quotes/routes.py:412-421 | an edit block sets an item's fields, numbers it by its block position and always stores a valid cycle, leaving the amount to the recalculation |
| Quotes.EditItems | app/quotes/routes.py:403-421 | applying the edit blocks neither adds nor drops items |
| Quotes.EditItemsUntargeted | app/quotes/routes.py:403-421 | an item no block names keeps every field |
| Quotes.EditItemsLastWins | app/quotes/routes.py:403-421 | an item takes the trimmed name, `_d` qty and rate, normalised cycle and position of the last block naming it |
| Quotes.CopyItem | app/quotes/routes.py:1060-1071 | a copied item keeps name and order, starts with amount 0 and has the same line amount as the original |
| Quotes.CopyItems | app/quotes/routes.py:1058-1071 | a new version copies every item of the base, one for one |
| Quotes.CopyKeepsSubtotal | app/quotes/routes.py:1058-1075 | the new version's recalculated subtotal equals the base's |
| Quotes.DefaultItem | app/quotes/routes.py:279-289 | the default item (qty 1, rate 0, ONETIME) has line amount 0 |
| Quotes.DefaultQuoteTotals | app/quotes/routes.py:279-293 | a new quote's default item gives subtotal, tax and total 0, taxed or not |
| Quotes.AppendRows | app/quotes/routes.py:590-601 | the inner loop appends one WAITING row per step and advances the global step by the number of steps |
| Quotes.BuildRows | app/quotes/routes.py:577-605 | the row-building loops produce exactly the plan: rows per matched rule in order, or nothing at the first rule without steps |
| Quotes.AccessByOwner | app/quotes/routes.py:103-113 | for a non-creator without view-all, access holds exactly when the opportunity's owner is in the team; no owner means no access |
| Quotes.OpportunityAccessCoversQuotes | app/quotes/routes.py:103-125 | whoever may open an opportunity with an owner may open every quote on it, and a creator may always open their own quote |
| Quotes.RecalcLines | app/quotes/routes.py:166-181 | the item loop normalises every item and the running subtotal is the sum of the new amounts |
| Quotes.RecalcBalances | app/quotes/routes.py:165-194 | recalculated items with the subtotal, tax and totals `_recalc_quote` writes are balanced, so a second recalculation finds nothing to change |
| Calendar.Midnight | app/admin/reports.py:369 | the midnight a date is widened to falls on that day and is its earliest second |
| Calendar.OptionalDateRoundTrip | app/quotes/routes.py:251-254 | a date written as YYYY-MM-DD is read back as that day, and an empty field is no date |
| Quotes.AutosaveItem | app/quotes/routes.py:495-502 | an autosave keeps the item's amount and order and stores a valid cycle |
| Quotes.AutosaveCurrency | app/quotes/routes.py:517-518 | the currency changes only when the payload carries one |
| Quotes.GstToggle | app/quotes/routes.py:521-524 | GST is on only for INR; an absent flag means on exactly for INR |
| Quotes.Quote.Create | app/quotes/routes.py:257-293 | a new quote is Draft version 1 with the next QT code, one default item, the form's currency (INR when blank), GST on only for INR, the given closure date, all totals zero and no approvals |
| Quotes.Quote.Open | app/quotes/routes.py:244-311 | 403 exactly when the user may not open the opportunity; then a closure date `strptime` cannot read fails and nothing is created; otherwise the new Draft is created |
| Quotes.Quote.NewVersion | app/quotes/routes.py:1030-1076 | a new version is a Draft numbered after the latest version, with the next code, the base's currency, discount, closure date and company branch, copied recalculated items and the base's subtotal; the client branch and billing state are not copied |
| Quotes.Quote.CreateVersion | app/quotes/routes.py:1024-1082 | 403 and no new quote exactly when the user may not open the base quote; otherwise the new version |
| Quotes.Quote.Recalc | app/quotes/routes.py:165-194 | after recalculation items are normalised and subtotal, tax, total and total_amount agree with the items |
| Quotes.Quote.RecalcOfConsistent | app/quotes/routes.py:165-194 | recalculating a consistent quote changes nothing |
| Quotes.Quote.Edit | app/quotes/routes.py:367-424 | 403 without quote access, then a locked quote, then an unreadable closure date: each changes nothing; otherwise currency, GST flag, discount, billing state, closure date and the submitted items are stored and the quote is recalculated |
| Quotes.Quote.SaveEdit | app/quotes/routes.py:376-424 | the accepted edit stores the form's currency, GST flag, discount, billing state and closure date, applies the item blocks and leaves the quote recalculated |
| Quotes.Quote.AddItem | app/quotes/routes.py:450-469 | 403 without quote access and a locked quote change nothing; otherwise the quote gains exactly "Item n+1" at position n+1 |
| Quotes.Quote.Autosave | app/quotes/routes.py:481-531 | 403 without quote access, then an item of another quote, then a locked quote, then an unreadable closure date: each changes nothing; otherwise the item, discount (defaulting to the current), currency, GST toggle, billing state and closure date are stored and the quote recalculated |
| Quotes.Quote.SaveAutosave | app/quotes/routes.py:495-531 | the accepted autosave stores the item, discount, currency, GST toggle, billing state and closure date and leaves the quote recalculated |
| Quotes.Quote.RequestApproval | app/quotes/routes.py:551-623 | 403 without quote access: nothing; otherwise it recalculates; locked: nothing more; no matching rule: auto-approved; a rule without steps: rows deleted and status kept; else the planned rows with the first PENDING and the quote Pending Approval; the workflow invariant is kept |
| Quotes.Quote.StartWorkflow | app/quotes/routes.py:574-620 | with matched rules: the old rows are deleted, then either a rule without steps stops with no rows and the status kept, or the planned rows are stored with the first PENDING and the quote Pending Approval |
| Quotes.Quote.Act | app/quotes/routes.py:670-722 | a missing row, 403 without quote access, a non-PENDING or unauthorised row or an unknown decision changes nothing; APPROVE promotes the next WAITING row and approves the quote when none is open; REJECT cancels all open rows and rejects the quote; the trimmed remark is stored |
| Quotes.Quote.Record | app/quotes/routes.py:691-720 | a decision on a PENDING row: approve promotes the next WAITING row and approves the quote when none is open; reject cancels every open row and rejects the quote; the workflow invariant is kept |
| Quotes.Quote.SaveProposal | app/quotes/routes.py:731-755 | 403 without quote access changes nothing; otherwise only a Selected quote with non-blank terms stores the trimmed terms, time and author |
| Quotes.Quote.MarkSent | app/quotes/routes.py:938-959 | 403 without quote access changes nothing; otherwise only a Selected quote with a saved proposal becomes Sent |
| Quotes.Quote.ConvertToClient | app/quotes/routes.py:1243-1327 | 403 without quote access changes nothing; otherwise only an Approved or Sent unlinked quote with company, branch, contact and final payment date is linked to the client, takes the branch state (the billing state when blank) and becomes Selected |
| Quotes.Quote.ConfirmProposal | app/quotes/routes.py:1389-1403 | 403 without quote access changes nothing; otherwise only a Sent quote with a proposal records who confirmed it and when |
| Quotes.Quote.RequestPi | app/quotes/routes.py:1411-1444 | 403 without quote access changes nothing; otherwise only a confirmed Sent quote without a pending request or live PI gets a pending PI request stamped with user and time |
| Quotes.Quote.RequestInvoice | app/quotes/routes.py:1451-1495 | 403 without quote access changes nothing; otherwise only a confirmed Sent quote with a live PI, no live invoice and no pending request gets a pending invoice request |
| Quotes.NewVersionDropsBillingState | app/quotes/routes.py:1038-1054 | a new version, lacking client branch and billing state, is untaxed |
| Quotes.ForeignEditUntaxed | app/quotes/routes.py:380-393 | an edited non-INR quote whose GST flag is left on still pays no tax |
| Tenancy.ExpiryWindow | app/platform_models.py:25-29 | a tenant without end date never expires; one is live on its end date and expired the day after, and expiry lasts |
| Tenancy.IsExpired | app/platform_models.py:25-29 | a tenant counts as expired only when it has an end date and today is after it |
| Tenancy.ActiveTenant | app/__init__.py:109 | the lookup returns an active tenant of that slug, and nothing exactly when there is none |
| Tenancy.ActiveTenantIsTheOne | app/__init__.py:109 | with unique slugs the lookup returns the one active tenant of the slug |
| Tenancy.HostOnly | app/__init__.py:83 | the host without its port is the colon-free prefix of the host |
| Tenancy.ExtractSubdomain | app/__init__.py:61-77 | a loopback host has no subdomain, and a subdomain found is a prefix of the lower-cased host without its port |
| Tenancy.ExtractedIsOneLabel | app/__init__.py:61-77 | a subdomain found by `_extract_subdomain` has no dot and no port separator |
| Tenancy.ExtractsLabelBeforeBase | app/__init__.py:68-72 | a lower-case dot-free label in front of ".base" is extracted as the subdomain |
| Tenancy.SubdomainSlug | app/__init__.py:82-89 | a slug exists only with a configured base domain the port-free host ends with, and is the host minus the base and one more character |
| Tenancy.SlugDropsAnyOneSeparator | app/__init__.py:87-88 | the slug is everything before the base and any one character, dots included |
| Tenancy.NoSlugOutsideBase | app/__init__.py:87-89 | the bare base domain, or a host not ending with it, has no slug |
| Tenancy.RequestSlug | app/__init__.py:97-101 | a request's slug is a non-empty subdomain slug, else a non-empty default slug |
| Tenancy.EngineOnlyForActiveTenant | app/__init__.py:97-115 | an engine is built only for an active tenant whose slug the request resolved to, from its db_uri |
| Tenancy.NoSlugNoEngine | app/__init__.py:103-106 | without a subdomain slug and without a default the request runs in platform-only mode |
| Tenancy.SubdomainTenantGetsItsDatabase | app/__init__.py:97-115 | the active tenant named by the subdomain gets its own database |
| Tenancy.RequestGlobals.constructor | app/__init__.py:92-95 | a request starts with no tenant engine assigned |
| Tenancy.RequestGlobals.BindTenantDatabase | app/__init__.py:92-115 | platform and static paths leave the request untouched; otherwise the tenant engine is the resolved tenant's, or none |
| Tenancy.GetBind | app/__init__.py:20-33 | the tenant engine is used exactly when the request has one and the table has no bind key, and then it is that engine |
| Tenancy.PlatformTablesStayOnPlatform | app/__init__.py:21-25 | the platform tables always reach the platform database whatever tenant is bound |
| Tenancy.UnboundRequestsUseDefault | app/__init__.py:32-33 | an unkeyed table in a request without a tenant engine reaches the default database |
| Sidebar.ShownSubs | app/__init__.py:206-211 | the shown submenus of a menu are exactly its active submenus the user's codes allow, in order |
| Sidebar.ShownMenus | app/__init__.py:202-234 | the sidebar's menus are exactly the active menus with at least one shown submenu |
| Sidebar.Entries | app/__init__.py:212-227 | one entry per shown submenu |
| Sidebar.Render | app/__init__.py:229-234 | one sidebar entry per shown menu |
| Sidebar.NoEmptyMenus | app/__init__.py:229-234 | every menu in the sidebar carries at least one submenu |
| Sidebar.NoRoleSeesOnlyOpenSubmenus | app/__init__.py:175-178 | a user without a role sees only submenus that need no permission code |
| Sidebar.BuildSidebar | app/__init__.py:195-236 | the nested loops build exactly the sidebar of the shown menus; an anonymous user gets none |
| Sidebar.VisibleSubs | app/__init__.py:206-227 | the inner loop builds exactly the entries of the menu's shown submenus |
| Proforma.LastId | app/proforma/routes.py:55 | the newest PI id exists exactly when there is a PI |
| Proforma.NextId | app/proforma/routes.py:55-56 | the next id is at least 1 and above every existing PI id |
| Proforma.LiveFor | app/proforma/routes.py:108-112 | a quote has a standing PI exactly when some PI of that quote is not Cancelled, and the one found is such a PI |
| Proforma.FindPi | app/invoices/routes.py:91 | the PI found carries the requested id; none is found only when no PI has it |
| Proforma.PiNoIsNextId | app/proforma/routes.py:54-57 | the number in a new PI's code is the id the new row gets |
| Proforma.PiAmountsBalance | app/proforma/routes.py:117-136 | a PI copied from a consistent quote balances: tax = cgst + sgst + igst and total = subtotal − discount + tax |
| Proforma.ProformaBook.constructor | app/proforma/routes.py:91 | an empty PI register is valid |
| Proforma.CreatePiFromQuote | app/proforma/routes.py:91-147 | the checks in order (access, confirmed, Sent, PI request Pending, no standing PI) decide the outcome; on success an Issued PI copying the quote's money fields is appended with the next id and code and the request becomes Approved; otherwise nothing changes |
| Proforma.IssuePi | app/proforma/routes.py:117-147 | the write half: an Issued PI copying the quote's money fields is appended with the next id and PI number, the register stays valid, and the quote's PI request becomes Approved with generator and time |
| Invoicing.CollectedNonNegative | app/payments/routes.py:15-21 | with positive payment amounts the collected sum is never negative |
| Invoicing.CollectedAppend | app/payments/routes.py:15-21 | adding a payment adds exactly its counted share to the collected sum |
| Invoicing.CollectedUpdate | app/payments/routes.py:15-21 | changing one payment changes the collected sum by the difference of its counted shares |
| Invoicing.ExcludingAbsentId | app/payments/routes.py:19-20 | excluding an id no payment carries changes nothing |
| Invoicing.ExcludingOne | app/payments/routes.py:19-20 | excluding a payment by its id takes out exactly its own share |
| Invoicing.NothingCollected | app/models.py:943-947 | an invoice no payment points at has collected nothing |
| Invoicing.QuoteCollectedSingleInvoice | app/models.py:624-631 | a quote with a single invoice has collected exactly what that invoice has |
| Invoicing.FindInvoice | app/payments/routes.py:76 | the invoice found carries the requested id; none only when no invoice has it |
| Invoicing.FindPayment | app/payments/routes.py:154 | the payment found carries the requested id; none only when no payment has it |
| Invoicing.LiveInvoiceFor | app/invoices/routes.py:108-111 | a PI has a standing invoice exactly when one of its invoices is not Cancelled |
| Invoicing.InvoiceNoIsNextId | app/invoices/routes.py:54-57 | the number in a new invoice's code is the last id plus one |
| Invoicing.DueDate | app/invoices/routes.py:120-121 | with no credit period the due date is the invoice date |
| Invoicing.InvoiceBook.constructor | app/invoices/routes.py:90 | an empty invoice book is valid |
| Invoicing.NewInvoiceCollectsNothing | app/invoices/routes.py:116-139 | a new invoice has collected nothing and is within its total |
| Invoicing.CreateInvoiceFromPi | app/invoices/routes.py:90-150 | a missing PI, no access, no pending request, a Cancelled or non-Issued PI, or a standing invoice refuses; otherwise an Unpaid invoice copying the PI is appended with the next id and code, the PI becomes Converted and the request Approved |
| Invoicing.ConvertKeepsPisValid | app/invoices/routes.py:142 | converting an Issued PI keeps the PI register valid |
| Invoicing.AppendInvoiceKeepsValid | app/invoices/routes.py:149-150 | appending the new invoice keeps ids ascending, one standing invoice per PI and every invoice within its total |
| Payments.ValidateCollection | app/payments/routes.py:24-33 | an amount is accepted exactly when positive and the counted payments plus it stay within the total; an excess reports the remaining amount, which is below the amount |
| Payments.Reference | app/payments/routes.py:87 | a stored reference is the trimmed, non-empty input |
| Payments.AddPayment | app/payments/routes.py:75-114 | a payment is stored exactly when the invoice exists, the user owns it or is admin and may add payments, the date parses, the transfer type is non-blank, the amount parses and passes validation; it is Pending with the next id; otherwise nothing is stored |
| Payments.AppendPaymentKeepsValid | app/payments/routes.py:92-104 | a payment that passed validation keeps every invoice within its total |
| Payments.StatusAfterVerify | app/payments/routes.py:168-172 | a verification leaves the invoice Paid exactly when nothing remains, else Partially Paid |
| Payments.PaymentAction | app/payments/routes.py:151-194 | non-finance users, a missing payment or an unknown action change nothing; reject marks the payment Rejected; verify re-validates without the payment itself, marks it Verified and sets the invoice Paid (collected = total) or Partially Paid |
| Payments.VerifyKeepsValid | app/payments/routes.py:160-172 | verifying a re-validated payment keeps every invoice within its total |
| Payments.RejectKeepsValid | app/payments/routes.py:174-178 | rejecting a payment keeps every invoice within its total |
| Payments.StatusKeepsValid | app/payments/routes.py:168-172 | writing the invoice status changes no id or total |
| Projects.ThresholdIsNewestActive | app/services/margin.py:4-9 | the threshold is 50 when no setting is active, else that of the newest active setting |
| Projects.MarginPercent | app/projects/routes.py:25-35 | on a positive contract the percentage is the margin over the contract times 100; otherwise 0 |
| Projects.FlagMeansCostAboveShare | app/projects/routes.py:37-38 | on a positive contract a project is flagged exactly when its cost exceeds (100 − threshold)% of the contract |
| Projects.MarginFallsAsCostRises | app/projects/routes.py:29-32 | more cost never raises the margin percentage |
| Projects.ContractValue | app/projects/routes.py:64 | the contract value is total_amount when non-zero, else total |
| Projects.RemoveCost | app/projects/routes.py:129-137 | after a delete the remaining cost rows are exactly those with another id |
| Projects.RemoveAbsentCost | app/projects/routes.py:133 | deleting an id no row has leaves the rows as they were |
| Projects.AddThenDeleteRestores | app/projects/routes.py:114-137 | deleting the cost just added brings total_cost back to its earlier value |
| Projects.CostAmount | app/projects/routes.py:90-96 | a blank amount reads as 0 |
| Projects.OptionalText | app/projects/routes.py:106-108 | a blank vendor or note is stored as NULL, anything else trimmed |
| Projects.Project.constructor | app/projects/routes.py:57-67 | a new project has no costs, total cost 0 and its margins computed from the threshold |
| Projects.Project.RecomputeMargin | app/projects/routes.py:25-38 | the margin amount, percentage and flag agree with contract, cost and threshold |
| Projects.Project.AddCost | app/projects/routes.py:80-119 | 403 without the permission; a cost is added exactly when the head is non-blank and the amount positive, raising total_cost by the amount and recomputing margins; otherwise nothing changes |
| Projects.Project.DeleteCost | app/projects/routes.py:125-142 | a cost of the project is removed, total_cost becomes the sum of the rows left and margins are recomputed; an unknown id changes nothing |
| Projects.ProjectBook.constructor | app/projects/routes.py:41 | an empty project table is valid |
| Projects.AppendProjectKeepsValid | app/projects/routes.py:53-70 | a project with the next id for a quote without one keeps ids ascending and one project per quote |
| Projects.ProjectCurrency | app/projects/routes.py:63 | a project always has a currency (INR when the quote has none) |
| Projects.CreateFromQuote | app/projects/routes.py:44-73 | only a Selected or Sent quote without a project gets one, with the next code, the quote's client and currency, its amount as contract value, the current time as creation time, no costs and computed margins; otherwise nothing changes |
| Reports.ParseMonth | app/admin/reports.py:18-30 | a blank month gives today's; the month returned is always 1..12 |
| Reports.MonthValueRoundTrip | app/admin/reports.py:18-30 | the "YYYY-MM" a page shows parses back to the same year and month |
| Reports.ReportMonth | app/admin/reports.py:33-36 | a report month exists exactly when the year is within 1..9999, and then carries the month's first and last day |
| Reports.DaysElapsed | app/admin/reports.py:129-134 | days elapsed is today's day of the month clamped into 1..days_in_month |
| Reports.ClusterScope | app/admin/reports.py:104-115 | a digit cluster id naming a user scopes the report to that head and everyone below; anything else leaves it unscoped |
| Reports.HeadInOwnCluster | app/admin/reports.py:39-58 | the cluster head belongs to their own cluster |
| Reports.ReportUsers | app/admin/reports.py:140-145 | the listed users are exactly the active users in the chosen cluster |
| Reports.RoleOf | app/admin/reports.py:169-170 | a missing or empty team role counts as BD |
| Reports.RequiredMultiplier | app/admin/reports.py:172 | the target is 15× CTC exactly for BD and 25× otherwise |
| Reports.Productivity | app/admin/reports.py:179 | productivity is revenue per CTC, 0 without a positive CTC |
| Reports.StatusOf | app/admin/reports.py:184-193 | without a target: Amber for any revenue, Red for none; with one: Green exactly on pace, Red exactly below 80% of the pace |
| Reports.StatusMonotone | app/admin/reports.py:184-193 | more revenue against the same target never gives a worse status |
| Reports.RowFor | app/admin/reports.py:167-212 | a user's row has gap = revenue − required MTD and the status of that revenue against it |
| Reports.CountStatus | app/admin/reports.py:195-200 | a status count never exceeds the rows |
| Reports.CountsCoverRows | app/admin/reports.py:195-200 | green, amber and red counts add up to the rows |
| Reports.ClusterProductivity | app/admin/reports.py:162-214 | one row per listed user, the revenue and CTC totals, and counts that add up to the users |
| Reports.BucketOf | app/admin/reports.py:296-303 | 0–30, 31–60, 61–90 and 90+ days go to their buckets, negative ages to 0–30 |
| Reports.AgingInvoicesMembers | app/admin/reports.py:258-268 | the aging query lists exactly the non-Cancelled invoices of the month in scope |
| Reports.AgingRowsOutstanding | app/admin/reports.py:284-303 | every aged row has something outstanding and sits in the bucket of its age |
| Reports.InBucketMembers | app/admin/reports.py:317 | a bucket holds exactly the rows of that bucket |
| Reports.AgingAppend | app/admin/reports.py:292-317 | appending a row extends its bucket and the totals by that row only |
| Reports.BucketsPartition | app/admin/reports.py:270-317 | the four buckets partition the rows |
| Reports.ExposureWithinOutstanding | app/admin/reports.py:292-294 | 0 ≤ exposure_60 ≤ total outstanding |
| Reports.CollectionsAging | app/admin/reports.py:249-317 | the rows, the four buckets, the outstanding total and the 60-day exposure are those of the invoices the query lists |
| Reports.TallyRow | app/admin/reports.py:285-303 | one invoice with something remaining joins the row list and the bucket its age selects, and the outstanding and exposure totals stay those of the rows |
| Reports.MarginRows | app/admin/reports.py:364-394 | the listed projects are exactly those of the query that pass the month (created between the midnights of its first and last day), client, flag, responsible and cluster filters; a project is in the cluster by its account manager, or by the opportunity owner when it has no account manager |
| Reports.CreatedWithinDays | app/admin/reports.py:369 | a creation time passes the month filter exactly when it falls on a day before the last one, or is the last day's midnight |
| Reports.AccountManagerDecidesScope | app/admin/reports.py:383-392 | a project with an account manager is in a cluster exactly when the manager is, whoever owns the opportunity |
| Reports.CountFlagged | app/admin/reports.py:409-411 | the flagged count never exceeds the rows |
| Reports.FlagOnlyListsFlagged | app/admin/reports.py:374-375 | with flag_only every listed project is flagged |
| Reports.MarginQuality | app/admin/reports.py:351-432 | totals of contract and cost over the listed projects, the flagged count, and the overall margin percentage of the totals; with flag_only all rows are flagged |
| Admin.Awaiting | app/admin/routes.py:331-337 | the matching rows are exactly the WAITING rows naming the user, or naming no user and the user's role; for a user without a role, those naming no user and a NULL role (SQL `IS NULL`) |
| Admin.PendingApprovalsFor | app/admin/routes.py:327-341 | anonymous: nothing; otherwise the count of WAITING rows assigned to the user, or to their role when no user is named, and the first eight of those rows |
| Admin.ActionableRowsNotCounted | app/admin/routes.py:331 | a PENDING row naming the user is never counted nor listed |
| Admin.FollowUps | app/admin/routes.py:195-204 | the listed follow-ups are exactly the owners' activities with a next follow-up date |
| Admin.Take | app/admin/routes.py:202 | the limit keeps a prefix of at most n rows, all of them when fewer |
| Admin.ItemOf | app/admin/routes.py:211-213 | a follow-up is due today exactly when dated today and overdue exactly when dated before; never both |
| Admin.CountToday | app/admin/routes.py:215-216 | the due-today count never exceeds the items |
| Admin.CountOverdue | app/admin/routes.py:217-218 | the overdue count never exceeds the items |
| Admin.FlagsDisjoint | app/admin/routes.py:211-218 | due-today plus overdue never exceeds the listed items |
| Admin.KpiFollowups | app/admin/routes.py:192-241 | total counts every follow-up of the owners; items are the first `limit` rows flagged for today and overdue, and the two counts are over those items only |
| Admin.CountClosing | app/admin/routes.py:249-255 | the closing-this-week count never exceeds the opportunities |
| Admin.CountCloseOverdue | app/admin/routes.py:257-263 | the overdue-close count never exceeds the opportunities |
| Admin.CountDated | app/admin/routes.py:252 | the dated count never exceeds the opportunities |
| Admin.ClosuresDisjoint | app/admin/routes.py:245-265 | closing-this-week and overdue count disjoint groups of dated opportunities |
| Admin.ClosingWindowIsEightDays | app/admin/routes.py:247-253 | "closing this week" holds exactly for close dates 0 to 7 days from today |
| Admin.FindCluster | app/admin/routes.py:664 | the cluster found carries the requested id; none only when no cluster has it |
| Admin.FindUser | app/admin/routes.py:632 | the user found carries the requested id; none only when no user has it |
| Admin.ClusterBook.constructor | app/admin/routes.py:612 | an empty cluster table is valid |
| Admin.ClusterBook.Post | app/admin/routes.py:613-703 | a blank name, a non-digit head or a missing or inactive head refuses every action first; create happens exactly when no cluster has the name ignoring case, update exactly when the cluster exists and no other cluster has the name, delete exactly when the cluster exists and only deactivates it; a refusal changes nothing; the names stay distinct |
| Admin.AppendClusterKeepsValid | app/admin/routes.py:646-654 | a new cluster with a fresh name and the next id keeps ids ascending and names distinct ignoring case |
| Admin.RenameKeepsValid | app/admin/routes.py:669-681 | renaming to a name no other cluster has keeps names distinct |
| Leads.AllowedLeadOwnerIds | app/leads/routes.py:43-53 | no restriction exactly with leads.view_all; otherwise exactly the user and everyone below them |
| Leads.OwnerFilter | app/leads/routes.py:141-149 | "me" filters on the user; a digit string on that owner, falling back to the user when not allowed; anything else does not filter |
| Leads.NextLeadId | app/leads/routes.py:501 | the next lead id is at least 1 |
| Leads.NextMasterId | app/leads/routes.py:524-527 | a new service or industry row gets an id of at least 1 |
| Leads.FindBranch | app/leads/routes.py:196 | the branch found carries the requested id; none only when no branch has it |
| Leads.FindLead | app/leads/routes.py:418 | the lead found carries the requested id; none only when no lead has it |
| Leads.Col | app/leads/routes.py:476-484 | a header key names the last column carrying it; none when no header has it |
| Leads.NamedRows | app/leads/routes.py:506-509 | the rows imported are exactly the sheet's rows whose name cell is non-blank, never more rows than the sheet has |
| Leads.KeyMapSound | app/leads/routes.py:492-495 | the lower-cased name map built from a master table points at rows of that table |
| Leads.HasGrows | app/leads/routes.py:524-528 | a row found in a master table is still found after rows are added |
| Leads.GetOrCreate | app/leads/routes.py:518-539 | a known key reuses its id and changes nothing; an unknown name adds an active row with the next id and records it under its lower-cased key; it clashes exactly when the key is unknown and a row, active or not, already carries the name (`unique=True`, app/models.py:323, 801) |
| Leads.LeadBook.constructor | app/leads/routes.py:458 | an empty lead book over given masters is valid |
| Leads.LeadBook.Create | app/leads/routes.py:177-238 | a branch without a client or of another client is refused first, then a closure date `strptime` cannot read, then a blank name, each saving nothing; a created lead is the form's lead with its closure date, owned by the user with the next id, appended |
| Leads.LeadBook.Assign | app/leads/routes.py:417-440 | a missing lead or one not visible is refused; an owner id that is no digit string or outside the user's team is refused; an id with no user row fails the `owner_id` foreign key at commit (app/models.py:361); the owner changes exactly when all checks pass, and only owner_id changes |
| Leads.LeadBook.Import | app/leads/routes.py:458-578 | no file, a non-Excel file or a sheet without a "name" column imports nothing; a sheet some row of which creates a service or industry named as an existing row fails and saves nothing; otherwise every named row becomes a lead owned by the user with consecutive ids, created + skipped equals the rows, and the service and industry tables only grow |
| Leads.LeadBook.ImportRows | app/leads/routes.py:503-571 | the import fails, saving nothing, exactly when some row's new service or industry repeats a name the table holds; otherwise the row loop creates one lead per named row and skips the rest, so created + skipped equals the rows, the leads are those of the named rows and the service and industry tables only grow |
| Leads.ImportAll | app/leads/routes.py:503-568 | the loop over all rows keeps lead ids ascending, counts the named rows as created and the rest as skipped, yields the leads of the named rows, and reports a failure exactly when some row clashes with a held name |
| Leads.ImportRow | app/leads/routes.py:505-567 | one named row resolves or creates its service and industry, keeps the name maps tracking the tables, appends its lead with the next id, and clashes exactly when a created service or industry repeats a name held before the import |
| Leads.Resolve | app/leads/routes.py:518-539 | a blank cell gives no id; otherwise an id whose row has the name's lower-cased key, the key becomes known, and the clash is that of the name against the table as it was before the import |
| Leads.ImportStep | app/leads/routes.py:503-567 | one turn of the row loop: a named row is imported and an unnamed one skipped, and the failure flag records whether the row clashed |
| Leads.NoClashWhenAllActive | app/leads/routes.py:492-539 | only a name held by an inactive row can clash: with every master row active no sheet makes the import fail |
| Leads.ActiveRowKnown | app/leads/routes.py:492-495 | every active master row's key is in the name map built from the table |
| Leads.AppendLeadKeepsAscending | app/leads/routes.py:233-234 | a lead with the next id keeps lead ids ascending |
| Leads.NextIdAfterRows | app/leads/routes.py:547-548 | after n imported rows the next id has advanced by n |
| Leads.AppendRowLead | app/leads/routes.py:550-567 | appending one row's lead extends the imported leads by that row |
| Clients.OrKeep | app/clients/routes.py:90 | a blank submission keeps the old value; anything else is stored trimmed |
| Clients.OptionalInt | app/clients/routes.py:39-40 | a blank number is stored as NULL |
| Clients.CheckDocument | app/clients/routes.py:156-205 | a document passes only with a name, two valid dates with expiry not before start, a quote of this client when given, a file, an allowed extension and a size within the limit; a blank name is refused first |
| Clients.FindClient | app/clients/routes.py:83 | the client found carries the requested id; none only when no client has it |
| Clients.FindBranch | app/clients/routes.py:298 | the branch found carries the requested id; none only when no branch has it |
| Clients.FindContact | app/clients/routes.py:373 | the contact found carries the requested id; none only when no contact has it |
| Clients.FindDocument | app/clients/routes.py:278 | the document found carries the requested id; none only when no document has it |
| Clients.CountContacts | app/clients/routes.py:376 | a branch's contact count never exceeds the contacts |
| Clients.CountAtLeastOne | app/clients/routes.py:376 | a branch has a contact exactly when its count is positive |
| Clients.CountAtLeastTwo | app/clients/routes.py:376-378 | a count of two or more means another contact of the branch exists, and back |
| Clients.LinksRemove | app/clients/routes.py:376-381 | removing a contact whose branch keeps another leaves every branch linked |
| Clients.ClearPrimary | app/clients/routes.py:328 | the bulk update clears the primary flag on exactly the branch's contacts and changes nothing else |
| Clients.RemoveContact | app/clients/routes.py:372-381 | a missing contact or a branch's last contact is refused and nothing changes; otherwise exactly that contact goes, and every branch keeps a contact and at most one primary |
| Clients.ClientBook.constructor | app/clients/routes.py:32 | an empty client book is valid |
| Clients.ClientBook.CreateClient | app/clients/routes.py:32-63 | a blank name is refused; a client is created exactly when the name is non-blank and the industry id parses, active, with the next id; otherwise nothing changes |
| Clients.ClientBook.UpdateClient | app/clients/routes.py:89-111 | an existing client is overwritten from the form, keeping its name when the new one is blank; a missing client or bad industry id changes nothing |
| Clients.ClientBook.AddBranch | app/clients/routes.py:114-152 | a branch and its first, primary contact are added together exactly when the client exists, the location is non-blank and not already one of the client's (`uq_client_branch_location`, checked before the contact name), and the contact name is non-blank; otherwise neither |
| Clients.ClientBook.UpdateBranch | app/clients/routes.py:297-310 | an existing branch is overwritten from the form, keeping its location when blank, exactly when no other branch of the client is at the resulting location; otherwise nothing changes |
| Clients.ClientBook.AddContact | app/clients/routes.py:317-341 | a named contact of an existing branch is appended; a primary newcomer first clears the branch's other primaries; every branch keeps at most one primary |
| Clients.ClientBook.UpdateContact | app/clients/routes.py:348-365 | the contact's fields are overwritten (a blank name kept); with is_primary=1 it becomes the branch's only primary, otherwise its flag is kept |
| Clients.ClientBook.DeleteContact | app/clients/routes.py:372-383 | a branch's last contact cannot be deleted; otherwise exactly that contact is removed |
| Clients.ClientBook.UploadDocument | app/clients/routes.py:156-229 | a document row with the next id is added exactly when the client exists and every check passes; otherwise nothing is stored |
| Clients.ClientBook.DeleteDocument | app/clients/routes.py:277-290 | exactly the named document row is removed; a missing one changes nothing |
| Clients.AppendBranchKeepsLocations | app/models.py:258-261 | a new branch at a location its client lacks keeps branch locations unique per client |
| Clients.ReplaceBranchKeepsLocations | app/models.py:258-261 | overwriting a branch in place with a location no sibling holds keeps branch locations unique per client |
| Clients.AddBranchKeepsRules | app/clients/routes.py:119-150 | adding a branch with its primary contact keeps every branch covered by a contact and one primary per branch |
| Clients.AppendContactKeepsRules | app/clients/routes.py:330-339 | appending a contact to an existing branch keeps the rules when no other contact of a primary newcomer's branch is still primary |
| Clients.AddContactKeepsRules | app/clients/routes.py:325-339 | clearing a branch's primaries before appending a primary contact keeps every branch covered and one primary per branch |
| Clients.RemoveContactKeepsRules | app/clients/routes.py:372-381 | deleting a contact whose branch keeps another keeps every branch covered and one primary per branch |
| UserMaster.Ctc | app/admin/user_master.py:155-160 | a blank monthly CTC is stored as 0 |
| UserMaster.CtcReadsNumbersElseZero | app/admin/user_master.py:155-160 | any text whose first non-space character is not a digit, sign or point is stored as 0 (NaN and Infinity spellings aside, see Left out); a whole number is stored as its value |
| UserMaster.EditedUser | app/admin/user_master.py:144-197 | an update never changes the user's id, auth provider or password hash |
| UserMaster.EditedProfile | app/admin/user_master.py:199-215 | the written profile belongs to the edited user |
| UserMaster.PendingAssigned | app/admin/user_master.py:178-182 | the pending count is positive exactly when some PENDING or WAITING approval is assigned to the user |
| UserMaster.StepsAssigned | app/admin/user_master.py:183-186 | the step count is positive exactly when some active rule step names the user as approver |
| UserMaster.FindRow | app/admin/user_master.py:142 | the lookup returns a row with the requested id, or none exists |
| UserMaster.FindProfile | app/admin/user_master.py:200-202 | the lookup returns the user's profile, or the user has none |
| UserMaster.DeactivationRefusedWhileAssigned | app/admin/user_master.py:176-195 | an active user with an open approval or an active rule step cannot be switched off |
| UserMaster.GuardOnlyOnDeactivation | app/admin/user_master.py:176-195 | the deactivation refusal happens only when an active user is switched off while work is assigned to them |
| UserMaster.IdentityOnlyForLocal | app/admin/user_master.py:144-172 | a non-LOCAL user's name and email are neither checked nor changed |
| UserMaster.LocalIdentityChecked | app/admin/user_master.py:162-172 | an accepted update of a LOCAL user stores a non-empty trimmed name and a non-empty email that is unchanged or not used by anyone |
| UserMaster.WithProfileFinds | app/admin/user_master.py:199-217 | the profile is created when missing and replaced otherwise, one per user |
| UserMaster.UpdateKeepsTablesValid | app/admin/user_master.py:141-218 | an accepted update keeps user ids, emails, profiles per user and employee codes unique |
| UserMaster.UserDirectory.constructor | app/admin/user_master.py:24 | an empty user directory is valid |
| UserMaster.UserDirectory.UpdateUser | app/admin/user_master.py:141-221 | the update follows the decision on the old tables: when accepted, only the edited row and the user's profile change; when refused, nothing is saved |
| UserMaster.UserDirectory.ResetPassword | app/admin/user_master.py:226-242 | the password is reset exactly when the user exists, is LOCAL and the new password is non-empty; afterwards the new password passes the check and nothing else changes |
| Pipeline.FirstActiveStage | app/pipeline/routes.py:47 | the first active stage by sort order is returned, or none when no stage is active |
| Pipeline.NextId | app/pipeline/routes.py:13-14 | the next id is at least 1 and above every existing id |
| Pipeline.NextCodeNamesNextRow | app/pipeline/routes.py:12-15 | the generated code is the code of the row about to be inserted |
| Pipeline.CodesDiffer | app/pipeline/routes.py:15 | different ids give different `OP-` codes |
| Pipeline.FindOpportunity | app/pipeline/routes.py:113 | the lookup returns the row with the requested id, or none exists |
| Pipeline.LastChange | app/pipeline/routes.py:93-99 | the latest history row found belongs to that opportunity |
| Pipeline.LastChangeAppend | app/pipeline/routes.py:130-137 | a new history row becomes the latest of its own opportunity and leaves the others' latest rows alone |
| Pipeline.CodesUnique | app/pipeline/routes.py:75-76 | in a valid pipeline no two opportunities share a code |
| Pipeline.StartStage | app/pipeline/routes.py:87 | a numeric stage id is taken as given, else the first active stage, and no stage only when none is active |
| Pipeline.NewOpportunity | app/pipeline/routes.py:75-88 | the inserted row has the next id, its code, the current user as owner, the start stage and the posted lead id |
| Pipeline.ExpectedValue | app/pipeline/routes.py:82 | an empty field stores 0, and every stored value fits `Numeric(12, 2)`, below 10^10 in size (app/models.py:468) |
| Pipeline.ExpectedValueReads | app/pipeline/routes.py:82 | a whole number below 10^10 is stored as itself; text with a thousands comma or without a leading digit, sign or point is refused by the column |
| Pipeline.DefaultStageCommits | app/pipeline/routes.py:84-87 | without a posted stage or lead, the insert fails only on the expected value: the fallback stage is a stage row |
| Pipeline.OnStage | app/pipeline/routes.py:26-28 | a stage's list holds exactly the opportunities in that stage |
| Pipeline.Board | app/pipeline/routes.py:21-28 | there is one list per active stage, each holding that stage's opportunities in the given order |
| Pipeline.BoardShowsActiveStagesOnly | app/pipeline/routes.py:25-28 | an opportunity appears on the board, under its own stage, exactly when that stage is active |
| Pipeline.PipelineBook.constructor | app/pipeline/routes.py:46 | an empty pipeline is valid |
| Pipeline.PipelineBook.Create | app/pipeline/routes.py:56-103 | an unreadable close date fails first and a blank title is refused; then the commit fails exactly when the expected value does not fit the numeric column or the start stage or linked lead has no row (foreign keys at app/models.py:452 and :462); each failure saves nothing; otherwise the new row is appended with a "Created" history row from no stage |
| Pipeline.PipelineBook.Move | app/pipeline/routes.py:112-140 | a missing opportunity, a non-numeric target or the current stage changes nothing; a target id with no stage row fails the `stage_id` foreign key at commit and changes nothing; otherwise the target is a stage row, only that row's stage and update time change and one history row records the old and new stage |
| Pipeline.AppendKeepsValid | app/pipeline/routes.py:90-100 | inserting a row with the next id and its first history row keeps ids ascending, codes matching ids and history pointing at existing rows |
| Pipeline.ReplaceKeepsValid | app/pipeline/routes.py:124-137 | changing one row's stage with a matching history row keeps the pipeline valid |
| Pipeline.MoveRecordsChange | app/pipeline/routes.py:130-137 | after a move the opportunity's latest history row records the stage it left |
| Companies.AllowedFileByExtension | app/company_master/routes.py:15-23 | a logo name is allowed exactly when it has a dot and its last extension, lower-cased, is png, jpg, jpeg or webp |
| Companies.SaveLogo | app/company_master/routes.py:38-64 | a logo is stored exactly when its name is allowed and it is at most 2 MB, under uploads/company_logos and ending in the cleaned file name |
| Companies.NextCompanyId | app/company_master/routes.py:99-100 | a new company's id is above every existing id |
| Companies.NextBranchId | app/company_master/routes.py:170-171 | a new branch's id is above every existing id |
| Companies.FindCompany | app/company_master/routes.py:105 | the lookup returns the company with the requested id, or none exists |
| Companies.FindBranch | app/company_master/routes.py:175 | the lookup returns the branch with the requested id, or none exists |
| Companies.CreateRefusesCaseVariants | app/company_master/routes.py:88-91 | no company is created under a name another company has, ignoring case |
| Companies.UpdateAcceptsCaseVariant | app/company_master/routes.py:104-121 | update does not compare names ignoring case in the handler, so under a case-sensitive collation renaming a company to another company's name in capitals is accepted |
| Companies.BlankCompanyNameRefused | app/company_master/routes.py:84-86 | a blank company name is refused before anything else, on create and on update |
| Companies.BranchFromForm | app/company_master/routes.py:141-180 | the written branch keeps its id and company and carries the trimmed name and the submitted status |
| Companies.SavedBranchNameIsFree | app/company_master/routes.py:151-158 | a saved branch name differs, ignoring case, from every other branch of the same company |
| Companies.BlankBranchNameRefused | app/company_master/routes.py:147-149 | a blank branch name saves nothing |
| Companies.AppendCompanyKeepsValid | app/company_master/routes.py:93-100 | adding a company with the next id and an unused name keeps ids ascending, names unique and every branch pointing at a company |
| Companies.ReplaceCompanyKeepsValid | app/company_master/routes.py:105-119 | overwriting a company with a name no other company holds keeps the master valid |
| Companies.AppendBranchKeepsValid | app/company_master/routes.py:160-171 | adding a branch with the next id, a name unused in its company and an existing company keeps the master valid, including the `company_id` foreign key |
| Companies.ReplaceBranchKeepsValid | app/company_master/routes.py:175-181 | overwriting a branch in place with a name unused in its company keeps the master valid |
| Companies.CompanyMaster.constructor | app/company_master/routes.py:70 | an empty company master is valid |
| Companies.CompanyMaster.CreateCompany | app/company_master/routes.py:78-102 | the outcome is the create decision on the old table; on success exactly one company is appended with the trimmed name, PAN, status and stored logo, otherwise nothing changes; branches never change |
| Companies.CompanyMaster.UpdateCompany | app/company_master/routes.py:104-121 | the outcome is the update decision on the old table: a blank name, a bad or unknown id, a refused logo, or a name another company holds exactly (the unique column at commit) saves nothing; on success only that company's name, PAN and status change, plus its logo when one is uploaded |
| Companies.CompanyMaster.ToggleCompany | app/company_master/routes.py:126-132 | the status flips exactly when the id is a number of an existing company, and nothing else changes |
| Companies.CompanyMaster.SaveBranch | app/company_master/routes.py:137-183 | the outcome is the branch decision on the old tables; an add for a company id with no company row fails the foreign key at commit (app/models.py:831) and saves nothing; an add appends one branch and an update overwrites one branch in place, keeping its company; the master stays valid, so every branch points at a company; companies never change |
| Companies.CompanyMaster.ToggleBranch | app/company_master/routes.py:188-194 | the branch status flips exactly when the id is a number of an existing branch, and nothing else changes |
| Platform.ParseDate | app/platform/routes.py:48-55 | blank text is no date |
| Platform.ParseDateRoundTrip | app/platform/routes.py:48-55 | a valid date written as YYYY-MM-DD, with or without surrounding spaces, reads back as that day |
| Platform.NextTenantId | app/platform/routes.py:110-111 | a new tenant's id is above every existing id |
| Platform.FindTenant | app/platform/routes.py:149 | the lookup returns the tenant with the requested id, or none exists |
| Platform.NewTenant | app/platform/routes.py:96-103 | a new registry row has the next id and is active |
| Platform.CreatedTenantIsWellFormed | app/platform/routes.py:80-125 | a created tenant has a name, slug and database URI, a slug no other tenant uses, an end date not before its start date, admin credentials and a provisioned database |
| Platform.EditedTenant | app/platform/routes.py:152-168 | an edit keeps the tenant's id |
| Platform.EditAcceptsBlankName | app/platform/routes.py:151-175 | edit, unlike create, accepts a blank name |
| Platform.ExtendChecksWindow | app/platform/routes.py:186-197 | an extension is accepted exactly for a valid date that is not before the tenant's start date |
| Platform.AppendTenantKeepsValid | app/platform/routes.py:96-111 | adding a tenant with the next id, an unused slug and an ordered window keeps the registry valid |
| Platform.ReplaceTenantKeepsValid | app/platform/routes.py:152-173 | overwriting a tenant with a slug no other tenant holds and an ordered window keeps the registry valid |
| Platform.TenantRegistry.constructor | app/platform/routes.py:60-62 | an empty registry is valid |
| Platform.TenantRegistry.New | app/platform/routes.py:67-141 | the outcome is the create decision on the old registry; a created tenant is appended, and a refusal or a failed logo or provisioning step leaves the registry as it was |
| Platform.TenantRegistry.Edit | app/platform/routes.py:148-175 | an accepted edit overwrites only that tenant's row; a refused edit saves nothing |
| Platform.TenantRegistry.Extend | app/platform/routes.py:182-200 | an accepted extension changes only that tenant's end date; otherwise nothing changes |
| Text.Strip | app/clients/routes.py:21-22 | stripping never lengthens a string |
| Text.StripEnds | app/clients/routes.py:21-22 | a stripped string is empty or begins and ends with a non-space character |
| Text.BlankIffAllSpace | app/clients/routes.py:21-22 | a value counts as blank exactly when every character is whitespace |
| Text.StripUnpadded | app/clients/routes.py:21-22 | a string without surrounding whitespace strips to itself |
| Text.StripIdempotent | app/clients/routes.py:21-22 | stripping twice is stripping once |
| Text.StripKeeps | app/pipeline/routes.py:82 | a character that is not whitespace survives stripping |
| Text.StripPadding | app/clients/routes.py:21-22 | strip removes exactly the whitespace around an unpadded core |
| Text.Upper | app/quotes/routes.py:62 | upper-casing keeps the length and maps each character on its own |
| Text.Lower | app/admin/user_master.py:147 | lower-casing keeps the length and maps each character on its own |
| Text.SameIgnoringCaseIsEquivalence | app/company_master/routes.py:89 | comparing names ignoring case is reflexive, symmetric and transitive |
| Text.Split | app/admin/reports.py:18-29 | splitting always yields at least one part and no part holds the separator |
| Text.JoinSplit | app/admin/reports.py:18-29 | joining the parts of a split gives back the original text |
| Text.SplitJoin | app/admin/reports.py:18-29 | splitting joined separator-free parts gives back the parts |
| Text.LastPart | app/company_master/routes.py:22 | the text after the last separator holds no separator and ends the original; without a separator it is the whole text |
| Text.Extension | app/clients/routes.py:195 | a file name without a dot has no extension |
| Text.ExtensionOfDotted | app/clients/routes.py:195 | the extension of a name ending in a dot and a dot-free suffix is that suffix, lower-cased |
| Numbers.DigitId | app/admin/user_master.py:153 | a number is read exactly when the text is all digits |
| Numbers.OrNone | app/admin/user_master.py:204 | an optional field is NULL exactly when the submitted text is blank |
| Numbers.ShowNatValue | app/quotes/routes.py:135 | a rendered number reads back as itself |
| Numbers.Pad6 | app/quotes/routes.py:135 | a `%06d` number has at least six digits |
| Numbers.Pad6Value | app/quotes/routes.py:135 | zero-padding to six digits loses nothing |
| Numbers.PadToWidth | app/quotes/routes.py:135 | below 10^w a padded number has exactly w digits |
| Numbers.ParsePadded | app/quotes/routes.py:135 | a zero-padded number reads back as itself |
| Numbers.NextCode | app/quotes/routes.py:132-135 | a generated code is the prefix followed by at least six digits |
| Numbers.NextCodeNumber | app/quotes/routes.py:132-135 | the number inside a generated code is the last id plus one, or 1 for an empty table |
| Numbers.NextCodeInjective | app/quotes/routes.py:132-135 | different last ids give different codes |
| Numbers.ParseInt | app/clients/routes.py:40 | `int()` of blank text fails |
| Numbers.ParseIntShowNat | app/clients/routes.py:40 | `int()` reads a rendered number back as itself |
| Numbers.DDefaults | app/quotes/routes.py:138-147 | `_d` gives the default for a missing value, for blank text, and for any text whose first non-space character is not a digit, sign, point or comma (Python's NaN and Infinity spellings aside, see Left out) |
| Numbers.NonNumericUnparsed | app/quotes/routes.py:145-148 | the model's `Decimal` reading refuses every text that starts with something other than a digit, sign or point |
| Numbers.CommaUnparsed | app/quotes/routes.py:145-148 | the model's `Decimal` reading refuses every text holding a comma |
| Numbers.DOfDigits | app/quotes/routes.py:138-147 | `_d` reads a string of digits as its value |
| Numbers.DReadsWholeNumbers | app/quotes/routes.py:138-147 | `_d` reads a rendered whole number back as that number |
| Numbers.DIgnoresThousandsComma | app/quotes/routes.py:141 | `_d` drops a thousands separator, so "12,345" reads as 12345 |
| Numbers.CommasDropped | app/quotes/routes.py:141 | removing commas joins the text around a comma |
| Calendar.DaysInMonth | app/admin/reports.py:35 | a month has 28 to 31 days, February 29 exactly in leap years |
| Calendar.MonthsFillYear | app/admin/reports.py:33-36 | the twelve months together fill the year exactly |
| Calendar.YearsFollow | app/admin/reports.py:33-36 | each year begins right after the previous one ends |
| Calendar.MonthBounds | app/admin/reports.py:33-36 | the bounds are the first and the last day of the month |
| Calendar.MonthBoundsSpanMonth | app/admin/reports.py:33-36 | the bounds span exactly the month's days, and every day of the month lies within them |
| Calendar.NextMonthFollows | app/admin/reports.py:33-36 | the day after a month's last day is the first day of the next month |
| Calendar.ParseYmd | app/leads/routes.py:82-85 | a parsed date is always a valid calendar date |
| Calendar.IsoDateRoundTrip | app/leads/routes.py:82-85 | every valid date written as YYYY-MM-DD parses back to itself |

## Left out

- Leads.LeadBook.Create: the posted status, source, service, industry and client ids are stored as given; only the branch is looked up. Under PostgreSQL and MySQL InnoDB, an id with no row fails the commit through its foreign key, and the model does not check this. The model checks foreign keys only for the opportunity's stage and lead, a lead's new owner, and a company branch's company. SQLite does not enforce foreign keys by default, and that dialect is not modelled.
- Sidebar.LinkOf: `url_for` of an unknown endpoint raises, and the source then falls back to the submenu's stored URL or "#" (app/__init__.py:219-220). Endpoints are taken as known, so the link is always the endpoint's.
- Proforma.CreatePiFromQuote / Invoicing.CreateInvoiceFromPi: the `Quote` object carries no id. The caller passes the quote that `quoteId` names (for an invoice, the PI's quote); that pairing is not a precondition.
- Rendering: templates, `flash`, `redirect`, `url_for` and PDF generation are presentation only. An outcome value stands for the message and the redirect target.
- Sessions, the request object and query construction are not modelled. Rows are passed in as sequences, and an engine is the tenant's database URI.
- The version-probing session class and the engine pool options in app/__init__.py are not part of this model.
- A tenant engine is built fresh on every request. The `_TENANT_ENGINES` cache, which is never used, is not modelled.
- The route decorators `@login_required` and `@require_perm` are not modelled. Permission checks made inside a handler are modelled, as boolean inputs or through `Accounts.HasPerm`.
- Password hashing is left to the hash library. `UserMaster.UserDirectory.ResetPassword` receives the new hash as the parameter `hashed`, together with the library's matching check.
- The file system is not modelled: saving and deleting logos and documents, `secure_filename`, and measuring upload sizes. The cleaned name and the size are inputs.
- Provisioning a tenant database (CREATE DATABASE, create_all and the admin user) is the boolean input `provisioned`.
- openpyxl is not modelled. A lead import sheet is a header plus rows of optional text cells.
- Leads.LeadBook.Import: every cell is text. In the source a numeric name, service or industry cell raises in `.strip()` and the row is counted under errors; the model has no error rows, so its created + skipped == rows holds for all-text sheets only. The same holds for `ImportRows`, `ImportAll` and `ImportRow`.
- Floating-point KPI helpers are not modelled: `kpi_pipeline`, `kpi_quotes`, `kpi_payments` and `kpi_outstanding`.
- Rounding is not modelled: the 28-digit Decimal context on division and the rounding of Numeric(12,2) columns on storage. Money is exact `real`.
- Decimal spellings that `Numbers.D` does not read (exponents, NaN, Infinity, underscores) fall back to the default, where Python would accept some of them.
- Numbers.DDefaults / Numbers.NonNumericUnparsed: Python's `Decimal` also reads "NaN", "sNaN", "Infinity" and "inf" in any letter case, which start with a letter; `_d` returns those values and the model returns the default.
- Integer parsing does not accept Python's underscore separators.
- The clock is a parameter. A date is a day number. A datetime is kept as a day number where the source only compares it with other datetimes or stores it; the project's `created_at`, which the margin report compares with dates, is a second count.
- Reports.CreatedWithin: compares a datetime with a date widened to its midnight, as PostgreSQL and MySQL do. SQLite compares the text forms, where even the last day's midnight is not `<=` the date; that dialect is not modelled.
- Concurrency is not modelled. The model covers one request at a time: there is no locking in `act_on_approval`, and the "last id + 1" code generators can race.
- Seeding, the CLI and the thin masters are not part of this model: menus, RBAC, services, industries, designations, currencies and margin settings. `Projects` takes the margin threshold as a parameter.
- Lead audit logging (app/audit.py) is a plain insert and is not modelled.
- The create action of `users_master` always raises, because it reads the employee profile before assigning it. It is left out rather than modelled as a working operation.
- The user list page and its filters are not modelled.
- The list and search pages are not modelled: quote, lead, client, company, tenant and approval inbox listings, with their pagination and free-text search.
- Access checks that call `abort(403)` are modelled as outcomes that change nothing.
- Invoicing.CreateInvoiceFromPi / Proforma.IssuePi: the PI's `notes` (the quote's `customer_notes`), `client_branch_id` and `company_branch_id`, and the invoice's copies of them, are not modelled. The quote model has no customer notes or branch fields. `CopiesPi` and `Proforma.CopiesQuote` list the fields that are modelled.
- Invoicing: a PI carries no credit days, so the invoice's `credit_days` is 0 and its due date is the invoice date.
- Invoicing.InvoiceBook.Valid: does not include "one live invoice per PI". A payment verification can set the status of a Cancelled invoice, because the source does not check it. `CreateInvoiceFromPi` only preserves the property when it already holds.
- Payments.PaymentAction: does not look at the payment's previous status. A verify can re-verify a Rejected payment, and a reject leaves an invoice's Paid status as it was, both as in the source.
- Non-positive invoice totals are accepted as given. The ledger bound then allows no payment at all.
- Quotes.Quote.RequestApproval / Approvals.ActiveStepsOf: rules and steps are taken in the order the queries return them, (sort_order, id) and (step_order, id). That the caller passes them so ordered is assumed; it is not a precondition.
- Projects.Project: has no `branch_id`. The route copies the quote's client branch into it, and nothing in the model reads it.
- Platform.TenantLogoName: the stored name is `secure_filename(slug + "." + ext)` in the source. The sanitising step is not modelled, so the name is the slug and the extension as they are.
- Projects.Project.DeleteCost: the route finds the cost by its global id before reaching its project. That lookup is left to the caller.
- Projects.Project.AddCost: receives the cost date already parsed, or None for a blank field. A `cost_date` that `datetime.fromisoformat` refuses raises a server error in the source; that path is not modelled.
- Reports: `top_overdue` is modelled as the unsorted list of overdue rows. The user list is taken in the order given, already sorted by name.
- Reports: the revenue query does not exclude Cancelled invoices, and neither does the model.
- Reports: the `_parse_month` year range is unbounded in the model. Python's `date` would raise for years outside 1..9999.
- Admin.PendingApprovalsFor: counts WAITING rows, as the source does, and not the PENDING rows the badge evidently means.
- Admin.KpiFollowups: the counts cover only the rows within the query limit, as in the source.
- Admin.ClusterBook: checks the head user only for existence and active status, as in the source.
- Leads.LeadBook.Assign: the handler does not check that the new owner exists; the foreign key refuses a missing one at commit, which the model's `UnknownOwner` stands for.
- Leads: the follow-ups page, the activity log and the owner drop-down are not modelled. They are rendering over the same visibility filter.
- Leads.GetOrCreate / Leads.LeadBook.Import: a sheet name is compared with the unique `name` columns exactly, as PostgreSQL compares text. The tenant databases the program provisions itself are MySQL databases with the case-insensitive collation utf8mb4_unicode_ci (app/tenant_provision.py:28-29). There, more sheets would fail at the flush; that collation is not modelled.
- Clients.LocationsUnique: locations are compared exactly, as PostgreSQL compares text. The collation utf8mb4_unicode_ci of the databases the program provisions (app/tenant_provision.py:28-29) would also refuse a location differing only in case; that collation is not modelled.
- Companies.CompanyMaster.UpdateCompany / Companies.CompanyMaster.SaveBranch: the unique columns `companies.name` and (company_id, branch_name) are compared exactly, as under a case-sensitive collation. Under utf8mb4_unicode_ci, the collation of the databases the program provisions (app/tenant_provision.py:28-29), a rename to a case variant of another company's name, or a branch update that posts another company's id and takes a case variant of a sibling's name in its own company, fails at commit and ends as "Action failed."; the model saves it. `Companies.UpdateAcceptsCaseVariant` holds only under a case-sensitive collation.
- Clients: copying the industry name into `company_industry` on create and edit is not modelled.
- Clients: timestamps and the "Invalid action" fall-through of the branch form are not modelled.
- Clients: the contacts JSON endpoint and the order of contacts in it are not modelled.
- Calendar.ParseYmd: `strptime`'s `\d` also matches non-ASCII decimal digits, which the model refuses; only ASCII digit fields are read. This applies to every date the model parses: quote and lead closure dates, client documents, the pipeline close date and `Platform.ParseDate`.
- UserMaster.CtcReadsNumbersElseZero: `monthly_ctc` values that `Decimal` reads as NaN, as Infinity or with an exponent are stored as 0 in the model.
- UserMaster: email uniqueness is compared exactly, as the handler compares it. Under the collation utf8mb4_unicode_ci of the databases the program provisions (app/tenant_provision.py:28-29), the unique index would also refuse an email that differs only in case, at commit. That collation is not modelled.
- UserMaster: the profile form's free-text fields are copied without checks.
- Pipeline: the `strptime` failure on a malformed close date is modelled as the outcome `InvalidCloseDate`, which saves nothing.
- Pipeline.ExpectedValue: the column's own reading of the text is approximated by `Decimal`'s. Exponent, NaN and Infinity spellings are refused, and rounding to two places is not modelled, so a value that rounds up to 10^10 is accepted.
- Pipeline.PipelineBook.Create / Pipeline.PipelineBook.Move: the handlers do not check that the stage or lead exists; the foreign keys refuse a missing one at commit, and that is what the model's `InsertRefused` and `UnknownStage` stand for.
- Pipeline.Board: receives the opportunities already ordered by most recent update.
- Pipeline: `today` and the closed stage names passed to the board template are presentation only.
- Companies: a `get_or_404` inside the handler's `try` becomes the generic failure outcome, and so does an invalid number.
- Platform: `tenants_edit` does not require a name, slug or database URI.
- Platform: an edited slug that clashes with another tenant's slug fails at commit and saves nothing.
- Platform: a refused edit saves nothing. The admin name of a new tenant is only passed on to provisioning.
