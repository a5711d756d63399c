# agrogest: a verified model of the farm back office's rules

agrogest is a Django back office for farms. It manages fields (parcels), products and product types, machines, tasks (treatments: spraying or fertigation), and the product lines of each task. On top of the CRUD pages it has:

- a JSON API for the calendar and the cost dashboard;
- maintenance commands that reprice lines, recompute doses and mark overdue work;
- a menu-driven assistant that walks a user through dose and price questions;
- three browser scripts: the treatment form, the field-costs dashboard and the SmartSelect widget;
- a generator that writes CRUD pages for a model.

This project models the rules inside those pieces in Dafny and proves what they promise. The model follows the code:

- **Records.** Database tables are sequences of records. A query is a filter over such a sequence. A command that updates rows is a method of a class whose `rows` field it rewrites.
- **Time.** `today` and `now` are parameters. Dates are day numbers; date-times are microsecond counts.
- **Numbers.** Decimal and float arithmetic is exact (`real`). `round`, `toFixed(2)` and similar rounding are function parameters, so no property depends on them.
- **Form of the code.** Code that changes state step by step (`calculate_total_dose`, the command loops, `TaskForm.clean`, the middleware, `form_valid`, the JavaScript row handling, the SmartSelect class, the roll-up loops of the API and the shopping list) is a method with loop invariants. Each such method is proved against a function. The properties are proved about that function. Pure decision code is written as functions and lemmas.

Modules follow the source files:

| Dafny file | source |
|---|---|
| `common.dfy` | shared helpers: `Option`, filtering, sums, stable sorts, grouping, splitting, Python/JavaScript string functions |
| `models.dfy` | `farm/models.py` |
| `managers.dfy` | `farm/managers.py` |
| `mixins.dfy` | `farm/mixins.py` |
| `middleware.dfy` | `accounts/middleware.py`, plus `update_last_activity` of `accounts/models.py` |
| `forms.dfy` | `farm/forms.py` |
| `legacy_views.dfy` | `farm/views.py` |
| `treatment_views.dfy` | `farm/views/views.py` |
| `api_views.dfy` | `farm/api_views.py` |
| `ai_queries.dfy` | `farm/ai_queries.py` |
| `recalculate_costs.dfy` | `farm/management/commands/recalculate_treatment_costs.py` |
| `recalculate_doses.dfy` | `farm/management/commands/recalculate_treatment_doses.py` |
| `delayed_status.dfy` | `farm/management/commands/update_delayed_treatments.py` and `update_delayed_tasks.py` |
| `treatment_form.dfy` | `static/js/treatment-form.js` |
| `field_costs.dfy` | `static/js/field-costs.js` |
| `smart_select.dfy` | `static/js/smart-select.js` |
| `crud_generator.dfy` | `farm/django_crud_generator.py` |

## Where the code and the documented design differ

The model follows the code in each case below, except for the three source defects listed under "## Findings". Each of those is modelled both as written and as intended.

- **The dose engine.** The design describes a `Treatment`/`TreatmentProduct` engine with machine-load planning, a recalculation cascade on save and totals rounded to one decimal. `farm/models.py` defines `Task`/`TaskProduct`. Its `calculate_total_dose` (farm/models.py:200-240) does no rounding and no load planning.
- **The missing dose lookup.** `calculate_total_dose` calls `get_dose_for_application`, which `Product` does not define (farm/models.py:204). As written, every call raises an AttributeError, and so does every `TaskProduct.save` (`FarmModels.RecalculateAsWritten`). The rest of the model reads the lookup as the pair `get_dose`/`get_dose_type` (farm/models.py:98-109). This is a finding.
- **Degenerate inputs do not give zero.** The design says a zero area or zero water yields 0. Instead:
  - a missing water value with a volume dose type raises after the dose type and unit are already assigned (`FarmModels.Recalculate`);
  - the cost command divides by the field area, so a zero or null area lands in the error counter (`RecalculateCosts.Reprice`);
  - the browser's inverse formula divides by zero (`TreatmentForm.DoseFromTotal`).
- **Per-2000 L and percent doses.** The browser estimate handles `_per_2000l` and gives 0 for `pct`. The server handles `pct` and leaves other types' totals as they were.
- **The middleware saves less than it sets.** It assigns `last_login_ip` but saves only `last_activity` (accounts/middleware.py:20-21, accounts/models.py:34-36). After a save, the stored IP is therefore unchanged.
- **`add_error` drops the field.** Django's `add_error` removes the field from `cleaned_data`. `TaskForm.clean` is modelled with that effect.
- **The dashboard's breakdown keys.** `static/js/field-costs.js` reads `field.product_types`, `product__product_type__name` and the overall `data.product_type_costs` (static/js/field-costs.js:215). `farm/api_views.py` does not send those keys under those names: the overall breakdown goes out as `product_breakdown` (farm/api_views.py:189-195). So `updateCharts` hands `undefined` to `prepareProductTypeChartData`, whose `.map` throws (static/js/field-costs.js:285). That happens inside the `.then` of the load (static/js/field-costs.js:52-56), after the cards are rendered, and the `.catch` (static/js/field-costs.js:57-66) then replaces them with the error alert on every load. The dashboard functions are modelled over what the script reads.
- **A line that is not JavaScript.** `static/js/smart-select.js:19` is `# Get data`, which does not parse. As written, the script therefore declares no class and registers no handler, so no widget is ever built (`SmartSelectWidget.AsWrittenDeclaresNoWidget`). The class is modelled as if the line were a comment. This is a finding. A choice's `label` is the field `text` in the model, because `label` is a Dafny keyword.
- **Mis-decoded accents.** The readable names in `farm/django_crud_generator.py` are stored with mis-decoded accents, for example "√Årea (ha)" for "Área (ha)". The model keeps them exactly as stored, because the generator writes them out that way.
- **Repeated treatments in the lists.** Both treatment list views filter on `products__id__in` and `products__product_type__in` without `.distinct()` (farm/views/views.py:107-108 and 113-114, farm/views.py:91-92 and 97-98). Each of these filters joins the product lines, so a treatment is listed once per matching line. When both are sent, the second join multiplies the first. The model keeps these repeats (`TreatmentViews.ApplyListFilters`).
- **A type named "Sin categoría".** The product filter of the field breakdown looks up "Sin categoría" as a null type (farm/api_views.py:254). A type actually named that is matched as null. This is modelled as written.

## Model

| member | source | states |
|---|---|---|
| FarmModels.SupportsApplicationType | farm/models.py:77-89 | defined (Some) exactly for spraying and fertigation; true exactly when the product has both a dose and a dose type for that method |
| FarmModels.GetDoseType | farm/models.py:98-102 | the product's spraying dose type for spraying, its fertigation dose type for fertigation, and none for any other application type |
| FarmModels.GetDose | farm/models.py:104-109 | the product's spraying dose for spraying, its fertigation dose for fertigation, and none for any other application type |
| FarmModels.ChoiceLabel | farm/models.py:96 | a label is found only for a present key and is paired with that key in the choices; no label means no key or no pair with that key |
| FarmModels.GetDoseTypeName | farm/models.py:94-96 | a name exactly when the product has a dose type for the method and it is one of the five labelled types; the name is the label paired with that type in the combined choices |
| FarmModels.DoseTypeNamesOfChoices | farm/models.py:49-60 | each of the five dose types maps to its human label ("L/1000L agua", "kg/1000L agua", "%", "L/ha", "kg/ha") |
| FarmModels.Status | farm/models.py:138-153 | always one of pending, completed, delayed, and each exactly when the corresponding predicate holds |
| FarmModels.StatusDisplay | farm/models.py:156-163 | never the "Desconocido" fallback; "Pendiente", "Completada", "Atrasada" each exactly in its state |
| FarmModels.StateClass | farm/models.py:165-171 | never the "secondary" fallback; warning, success, danger each exactly in its state |
| FarmModels.TypeClass | farm/models.py:173-178 | the icon class of spraying and fertigation, and "secondary" exactly for any other task type |
| FarmModels.GetWaterPerHa | farm/models.py:180-183 | fertigation uses no spray water; any other type returns that Task's own (nullable) water per hectare |
| FarmModels.FieldCountsPartition | farm/models.py:16-27 | the pending, completed and delayed counters of a field add up to the number of its tasks |
| FarmModels.ResolveDose | farm/models.py:204-214 | with the lookup read as `get_dose`/`get_dose_type` (see Findings): an entered dose wins and needs a non-empty entered dose type (else the ValueError); without one the product's dose and dose type for the method are used, and the ValueError is raised exactly when the product has none |
| FarmModels.UnitFor | farm/models.py:219-223 | the unit is kg exactly for the two kg dose types, litres otherwise |
| FarmModels.TotalDoseFor | farm/models.py:229-240 | per area: dose times area; per 1000 L: dose times water times area over 1000; percentage: over 100; missing water fails exactly for the water-based types; any other type leaves the total alone |
| FarmModels.Recalculate | farm/models.py:200-240 | the ValueError happens exactly when no dose can be determined and leaves the line untouched; otherwise dose type and unit follow the chosen dose; the TypeError happens exactly when a volume or percentage dose type meets missing water, and leaves the old total; on success the total is the formula's amount, or the old total for an unknown dose type; the AttributeError never happens |
| FarmModels.RecalculateAsWritten | farm/models.py:204 | as written, every call ends in the AttributeError of the undefined `get_dose_for_application`, with the line untouched |
| FarmModels.UndefinedLookupFailsSettledLine | farm/models.py:200-240 | a line the intended calculation completes (2 L/ha on 10 ha gives 20 L) fails as written |
| FarmModels.TotalDoseExamples | farm/models.py:229-240 | 10 ha with 850 L/ha of water: 2 L/ha gives 20, 3 kg/ha 30, 5 L/1000L 42.5, 2 kg/1000L 17, 10 % 850 |
| FarmModels.RecalculateIdempotent | farm/models.py:242-245 | recalculating (as every save does) a line that already holds its computed values changes nothing |
| FarmModels.TaskProduct.constructor | farm/models.py:186-192 | the line holds the given product, task data, dose, dose type, total and unit |
| FarmModels.TaskProduct.CalculateTotalDose | farm/models.py:200-240 | the outcome and the new dose type, total and unit are those of Recalculate on the old line; the entered dose is not changed |
| Ownership.QuerysetForUser | farm/managers.py:10-25 | a superuser sees every row; a user without organization sees none; anyone else sees exactly the rows of their own organization; never a row that is not in the table |
| Ownership.OrphanRowsHidden | farm/managers.py:20-25 | a row without organization is hidden from every user who is not a superuser |
| Ownership.SameOrganizationSameRows | farm/managers.py:24-25 | two ordinary users of the same organization see the same rows |
| Mixins.TestFunc | farm/mixins.py:14-39 | a superuser, a list view (no `get_object`) and a create view (no object) are always allowed; for an existing object an ordinary user is allowed exactly when they own it or share its non-null organization |
| Mixins.ListedObjectsAllowed | farm/mixins.py:14-39 | every object a user's list shows them (QuerysetForUser) also passes the detail views' access test |
| Mixins.HandleNoPermission | farm/mixins.py:41-50 | an anonymous user goes to the login page carrying the requested path; an authenticated one goes home |
| Mixins.AuditAction | farm/mixins.py:88 | the logged action is "create" exactly when the view has no `object` attribute, and "update" exactly when it has one |
| Mixins.AuditedObject.constructor | farm/mixins.py:68 | the unsaved form object with its primary key, owner, organization and attribute flags |
| Mixins.AuditedObject.FormValid | farm/mixins.py:67-107 | an object whose key is falsy (missing or 0) gets creator, default owner and default organization (only where those are empty); every saved object gets the editor; an object without a key gets one; the audit entry records user, action, key and the client address as the middleware computes it |
| Common.ClientIp | accounts/middleware.py:14-15 | without a forwarded-for header (or with an empty one) the remote address; otherwise the header's first comma-separated entry, a prefix without commas, which is the whole header when it has no comma |
| Common.ClientIpFirstEntry | farm/mixins.py:91-95 | for a proxy chain `first,rest` the client address is `first`, whatever follows |
| UserTracking.SecondsComponent | accounts/middleware.py:19 | `timedelta.seconds`: always within one day's seconds, and the whole elapsed seconds when less than a day elapsed |
| UserTracking.SecondsIgnoreDays | accounts/middleware.py:19 | adding a whole day to the elapsed time does not change `.seconds` |
| UserTracking.DayOldActivityNotUpdated | accounts/middleware.py:19 | as written, activity one day and 30 s old is not refreshed, while the elapsed-time rule refreshes it |
| UserTracking.ThrottlesAgreeWithinDay | accounts/middleware.py:19 | within one day (whole seconds) the written throttle and the elapsed-time throttle agree |
| UserTracking.NeedsUpdateStaysTrue | accounts/middleware.py:19 | once a refresh is due it stays due as time passes |
| UserTracking.TrackedUser.constructor | accounts/models.py:31-32 | the user's in-memory and stored address and activity start equal |
| UserTracking.TrackedUser.UpdateLastActivity | accounts/models.py:34-36 | activity is stamped with `now` in memory and in the database; only that column is saved, so the address is not |
| UserTracking.NextHandler.constructor | accounts/middleware.py:9-10 | the next handler returns the given response and has not been called |
| UserTracking.NextHandler.Handle | accounts/middleware.py:22 | returns its response and counts one call |
| UserTracking.UserTrackingMiddleware.constructor | accounts/middleware.py:9-10 | keeps the given next handler |
| UserTracking.UserTrackingMiddleware.Track | accounts/middleware.py:12-22 | for a given throttle verdict, the next handler is called exactly once and its response returned; an authenticated user who is due gets the client address in memory and activity stamped and saved, the stored address staying as it was; any other user is untouched |
| UserTracking.UserTrackingMiddleware.Call | accounts/middleware.py:12-22 | as written, with the `.seconds` throttle: the next handler is called exactly once and its response returned; an authenticated user whose refresh is due by `.seconds` gets the client address in memory and activity stamped and saved, the stored address staying as it was; any other user is untouched |
| UserTracking.UserTrackingMiddleware.CallIntended | accounts/middleware.py:12-22 | the same request handling with the throttle on the total elapsed time (see Findings) |
| TaskForms.TaskForm.constructor | farm/forms.py:31-32 | the form starts with the given cleaned data and no errors |
| TaskForms.TaskForm.AddError | farm/forms.py:39-42 | the error is appended and its field leaves the cleaned data, as Django's `add_error` does |
| TaskForms.TaskForm.Clean | farm/forms.py:31-50 | the returned and kept cleaned data are CleanedTask of the old data, and exactly the errors of TaskErrors are appended |
| TaskForms.TaskErrors | farm/forms.py:37-42 | the machine error exactly for a spraying task without machine, the water error exactly for a spraying task without (or with zero) water, and no error for any other type |
| TaskForms.CleanedTask | farm/forms.py:37-50 | the type is kept; a spraying task loses the fields that got an error; a fertigation task loses its machine and gets water 0 only when none was given; any other type is left as it is |
| TaskForms.CleanedTaskIdempotent | farm/forms.py:31-50 | cleaning a task that had no error again changes nothing and raises no error |
| TaskForms.FertigationExample | farm/forms.py:45-48 | a fertigation task never keeps a machine and keeps its own water volume, even 0; without one it gets 0 |
| TaskForms.ZeroWaterRejected | farm/forms.py:41-42 | a spraying task with water 0 gets only the water error |
| TaskForms.CountZero | farm/forms.py:66-74 | no form is counted exactly when no form is valid, filled in, not deleted, with a product and a non-zero dose |
| TaskForms.CleanFormSet | farm/forms.py:60-77 | the formset passes exactly when at least one form counts, and otherwise fails with the "at least one product" message |
| TaskForms.FormSetRule | farm/forms.py:66-77 | at least one form counts exactly when some form is valid, filled in, kept, with a product and a non-zero dose |
| LegacyViews.TreatmentRecord.constructor | farm/views.py:230 | a treatment as loaded: memory and storage agree |
| LegacyViews.TreatmentRecord.Save | farm/views.py:241 | storage takes the in-memory water volume and finish date; memory is not changed |
| LegacyViews.TreatmentRecord.FinishTreatment | farm/views.py:228-243 | no finish date: 400 and nothing changes; a water value `int()` rejects: the uncaught error and nothing changes; success exactly otherwise, with the parsed water (or the old one when none was sent) and the finish date assigned and saved |
| LegacyViews.TreatmentList | farm/views.py:69-102 | a treatment is listed exactly when it passes every sent filter; one that passes the column filters is listed once per matching product line times once per line of a sent product type, and with no product or type filter at most once; newest first |
| LegacyViews.NoDefaultStatus | farm/views.py:99-100 | without a status parameter the legacy list keeps a completed treatment that the current list's pending/delayed default would drop |
| TreatmentViews.ShoppingScope | farm/views/views.py:283-290 | exactly the lines of pending or delayed treatments, and of the selected fields when any are selected |
| TreatmentViews.AccumulateStep | farm/views/views.py:298-320 | one pass of the grouping loop keeps the dict exact: its keys are the (product, unit) pairs in first-seen order and each entry holds its group's totals |
| TreatmentViews.MissingTypeFails | farm/views/views.py:308 | a new (product, unit) group whose first line's product has no type makes the whole list fail |
| TreatmentViews.GroupedFailsLater | farm/views/views.py:298-308 | once the loop has raised it does not recover on later lines |
| TreatmentViews.GroupedMeaning | farm/views/views.py:294-320 | the loop completes exactly when every group's first line has a product type, and then the dict holds one entry per (product, unit) group in first-seen order with the group's name, type, unit, dose and price sums, line count and field names |
| TreatmentViews.GroupLines | farm/views/views.py:294-320 | the loop completes exactly when the reference grouping does, and then yields its key order and entries |
| TreatmentViews.FormatRows | farm/views/views.py:323-328 | one row per dict entry, in insertion order, with the field names sorted and joined and the sums rounded |
| TreatmentViews.FormattedGroups | farm/views/views.py:323-328 | formatting the completed dict gives the rows of the groups in first-seen order |
| TreatmentViews.UnsortedRows | farm/views/views.py:323-328 | one row per distinct (product, unit) group |
| TreatmentViews.ShoppingRows | farm/views/views.py:331 | the rows are in product-name order and there is one per distinct (product, unit) group |
| TreatmentViews.ShoppingList | farm/views/views.py:281-333 | the list is the one the reference definition gives for the lines in scope: the sorted group rows, or the failure of a product without type |
| TreatmentViews.RowOfGroup | farm/views/views.py:304-327 | a group's row carries its key and product name, the rounded sums of its lines' doses and prices, its line count and its field names |
| TreatmentViews.GroupFieldNames | farm/views/views.py:313-320 | a group's field names are exactly those of its lines, each once |
| TreatmentViews.ShoppingRowsCover | farm/views/views.py:298-331 | every line in scope is counted in the row of its (product, unit) |
| TreatmentViews.ShoppingRowsFromGroups | farm/views/views.py:323-331 | every row is the row of some group of lines in scope |
| TreatmentViews.ShoppingRowKeysDistinct | farm/views/views.py:302-331 | no two rows share a (product, unit) key |
| TreatmentViews.TwoUnitsTwoRows | farm/views/views.py:302 | the same product in L and in kg gives two rows |
| TreatmentViews.SameKeyOneRow | farm/views/views.py:302-319 | two lines of the same product and unit merge into one row with count 2 and the rounded sums of their doses and prices |
| TreatmentViews.Summary | farm/views/views.py:345-347 | the count is the number of rows |
| TreatmentViews.SummaryOfGroups | farm/views/views.py:345-347 | the count is the number of (product, unit) groups, and the total price does not depend on the name sort |
| TreatmentViews.DefaultStatuses | farm/views/views.py:97 | sent statuses are kept; without any, pending and delayed are selected and completed is not |
| TreatmentViews.FilterQuery | farm/views/views.py:103-106 | a filter on the treatment's own columns: every copy of a treatment satisfying it stays, no copy of another, nothing is added and the date order is kept |
| TreatmentViews.JoinQuery | farm/views/views.py:107-108 | a filter across the product lines: each treatment comes out as many times as it had copies times its matching rows, exactly those with a matching row remain, and the date order is kept |
| TreatmentViews.HitsOverlap | farm/views/views.py:107-108 | a treatment's matching line count is at most its line count, and non-zero exactly when one of its lines carries a sent value |
| TreatmentViews.JoinRowsMatch | farm/views/views.py:103-116 | a treatment yields a row exactly when it passes every sent filter; with no product or type filter it yields exactly one |
| TreatmentViews.MatchingLinesRepeatTreatment | farm/views/views.py:107-114 | a treatment with lines for products 1 and 2 is listed twice for `?products=1&products=2`, and four times when a sent product type matches both lines |
| TreatmentViews.RecordFilters | farm/views/views.py:103-108 | a treatment is kept exactly when it passes the sent field, type and product filters; it then appears once per copy per matching product line; with no product filter nothing is added; in order |
| TreatmentViews.DateAndStatusFilters | farm/views/views.py:109-116 | a treatment is kept exactly when it passes the sent date, product-type and status filters; it then appears once per copy per line of a sent type; with no type filter nothing is added; in order |
| TreatmentViews.ApplyListFilters | farm/views/views.py:103-116 | a treatment is kept exactly when it passes every sent filter; one passing the column filters appears its number of copies times its product-line matches times its type-line matches; with no product or type filter nothing is added; the date order is kept |
| TreatmentViews.TreatmentList | farm/views/views.py:92-118 | a treatment is listed exactly when it passes every sent filter with pending/delayed as the default status filter (so without a status parameter nothing completed is listed); it is repeated once per pair of matching product and type lines, and with no product or type filter listed at most once; newest first |
| TreatmentViews.TreatmentCosts | farm/views/views.py:159-168 | the total is the sum of the line prices; with a positive area the cost per hectare times the area is the total, otherwise it is 0; the legacy detail view (farm/views.py:143-151) computes the same |
| TreatmentViews.TreatmentCostsAppend | farm/views/views.py:159-168 | total and cost per hectare are additive over product lines |
| TreatmentViews.FinishTreatmentPost | farm/views/views.py:238-248 | 400 exactly when the finish date is missing or empty; otherwise `finish_treatment` receives the date and the water as sent |
| ApiViews.GetProducts | farm/api_views.py:39-54 | never more entries than products; every entry carries a dose and a dose type; nothing is listed for an unknown application method |
| ApiViews.GetProductsMembers | farm/api_views.py:41-53 | an entry is listed exactly when it is the id, name, dose, dose type and dose-type label, for that method, of a product that supports it |
| ApiViews.DigitTokens | farm/api_views.py:78 | one non-negative id per all-digit token, and none exactly when no token is all digits |
| ApiViews.FieldIdFilter | farm/api_views.py:76-80 | no field filter exactly for an empty parameter, "all", or a list without an all-digit token; otherwise the filter is the non-empty list of the all-digit tokens' values |
| ApiViews.IdStrings | farm/api_views.py:78 | the decimal rendering of each id is all digits and reads back as that id |
| ApiViews.DigitTokensOfIds | farm/api_views.py:78 | reading the renderings of non-negative ids gives the ids back |
| ApiViews.FieldIdFilterRoundTrip | farm/api_views.py:76-80 | a comma-joined list of non-negative ids is read back exactly |
| ApiViews.FieldIdFilterKeepsDigits | farm/api_views.py:78 | "3,x,12" filters by fields 3 and 12 |
| ApiViews.FieldIdFilterDropsNonDigits | farm/api_views.py:78-79 | "x,-1" keeps no token, so no field filter is applied |
| ApiViews.TypeFilter | farm/api_views.py:83-86 | any non-empty parameter filters by its comma-separated parts, which join back to the parameter |
| ApiViews.EventOf | farm/api_views.py:91-100 | the event keeps the treatment's id, name, type, water and finish date, and is dated on the finish date when there is one, else on the scheduled date |
| ApiViews.CalendarScope | farm/api_views.py:68-86 | exactly the treatments passing whichever date, field and type filters are on |
| ApiViews.CalendarTreatments | farm/api_views.py:57-104 | one event per treatment in scope, in order, each the event of its treatment |
| ApiViews.DateRangeBounds | farm/api_views.py:147-156 | the default range is the 365 days up to today, and each bound is replaced on its own by the given date |
| ApiViews.PerHa | farm/api_views.py:168 | with a positive area the cost per hectare times the area is the total; otherwise it is 0 |
| ApiViews.DisplayName | farm/api_views.py:248 | a non-empty type name is shown as itself; a null or empty one as "Sin categoría" |
| ApiViews.ProductFilterKey | farm/api_views.py:254 | "Sin categoría" is looked up as a null type, any other name as itself |
| ApiViews.FilterKeyOfDisplayName | farm/api_views.py:248-254 | the product query finds the type's own rows exactly when the type is null or named neither "" nor "Sin categoría" |
| ApiViews.Percentage | farm/api_views.py:250 | with a non-zero whole the percentage times the whole is 100 times the part; with a zero whole it is 0 |
| ApiViews.InScope | farm/api_views.py:228-232 | exactly the line items of the given fields whose treatment date is within the range |
| ApiViews.ProductSharesOf | farm/api_views.py:262-269 | one product entry per product group, with its percentage of the type total |
| ApiViews.Breakdown | farm/api_views.py:245-278 | one entry per product-type group |
| ApiViews.SharesStep | farm/api_views.py:247-276 | each loop pass appends the entry of the next type group |
| ApiViews.GetFieldProductBreakdown | farm/api_views.py:198-278 | the loop builds the reference breakdown of the line items in scope, largest type total first |
| ApiViews.BreakdownOfShares | farm/api_views.py:245-278 | entries for all type groups, in order, are the breakdown |
| ApiViews.BreakdownSorted | farm/api_views.py:238-242 | the types are listed in non-increasing order of their totals |
| ApiViews.BreakdownTotals | farm/api_views.py:235-249 | the type totals add up to the total cost of the line items |
| ApiViews.BreakdownPercentages | farm/api_views.py:235-250 | with a non-zero total cost the type percentages add up to 100 |
| ApiViews.TypeGroupTotal | farm/api_views.py:238-242 | each type entry totals exactly the line items of its type, of which there is at least one |
| ApiViews.TypeGroupsDistinct | farm/api_views.py:238-242 | no two entries come from the same product type |
| ApiViews.TypeGroupsCover | farm/api_views.py:238-242 | every line item's type has an entry |
| ApiViews.BreakdownProductsSorted | farm/api_views.py:253-259 | each type's products are listed in non-increasing order of their totals |
| ApiViews.BreakdownProductTotals | farm/api_views.py:253-269 | for a type that is null or has an ordinary name, the product totals add up to the type total and their percentages to 100 when that total is not 0 |
| ApiViews.ProductSharesSums | farm/api_views.py:262-269 | the product totals add up to the groups' sum, and the percentages to that sum over the type total times 100 |
| ApiViews.SelectFields | farm/api_views.py:159-162 | every field when no ids are given; otherwise exactly the fields whose id is given |
| ApiViews.FieldIds | farm/api_views.py:187 | the ids of the selected fields, in order |
| ApiViews.CostsStep | farm/api_views.py:166-180 | each loop pass appends the entry of the next field |
| ApiViews.FieldCostsData | farm/api_views.py:145-195 | one entry per selected field with its treatments' cost, guarded cost per hectare and own breakdown; total area and total cost are the sums, the overall cost per hectare is guarded, and the overall breakdown covers all selected fields in the date range |
| ApiViews.ReportBreakdownTotal | farm/api_views.py:183-194 | the overall breakdown accounts for the whole cost of the selected fields' line items in range |
| Common.RankedGroups | farm/api_views.py:238-242 | `.values(key).annotate(total=Sum(...)).order_by('-total')`: at most one group per element, in non-increasing order of totals |
| Common.SumRankedGroups | farm/api_views.py:238-242 | the group totals add up to the total of all elements |
| Common.RankedGroupOfKey | farm/api_views.py:238-242 | each group sums exactly the elements of its key, of which there is at least one |
| Common.RankedKeysDistinct | farm/api_views.py:238-242 | no two groups share a key |
| Common.RankedCovers | farm/api_views.py:238-242 | every element's key has a group |
| Assistant.Truncate | farm/ai_queries.py:339 | Python `int()` of a float: the integer toward zero within one unit of it |
| Assistant.ToFloat | farm/ai_queries.py:326 | `float()`: ints and floats convert to themselves, a digit string to its value, None and dicts raise |
| Assistant.ToInt | farm/ai_queries.py:339 | `int()`: ints stay, floats truncate, a digit string gives its value, None and dicts raise |
| Common.JoinedCount | farm/views/views.py:107-108 | a join repeats each element once per matching row: its count becomes its old count times its row count |
| Common.JoinedSortedDesc | farm/views/views.py:107-118 | a join keeps a descending order, since the copies of an element sit side by side |
| Common.FilterCount | farm/views/views.py:103-106 | a filter keeps every copy of a kept element and none of the others |
| Common.TrimStripsBlanks | static/js/smart-select.js:76 | `trim()` removes only blanks: the result is the slice of the text that starts where the leading blanks end, with nothing but blanks before and after it |
| Common.TrimmedDigits | farm/ai_queries.py:326-339 | a digit string has nothing to strip and both `int()` and `float()` read it as its value |
| Assistant.LookupKey | farm/ai_queries.py:88 | `.get(id=v)`: None matches no row, a value `int()` rejects makes the lookup raise, anything else is looked up as that integer |
| Assistant.FindProduct | farm/ai_queries.py:87-90 | a found product is in the list and has the id; none is found exactly for a None id or an id no product has |
| Assistant.FindField | farm/ai_queries.py:331-336 | a found field is in the list and has the id; none is found exactly for a None id or an id no field has |
| Assistant.ShownPrice | farm/ai_queries.py:79 | the product's price when set and non-zero, else 0 |
| Assistant.SelectableProducts | farm/ai_queries.py:40-49 | only listed products; with the spraying or fertigation filter exactly those supporting it; with any other filter all products |
| Assistant.Applications | farm/ai_queries.py:68-72 | "Pulverización" is listed exactly when the product supports spraying, "Fertirrigación" exactly when it supports fertigation |
| Assistant.FormatProducts | farm/ai_queries.py:62-80 | succeeds exactly when every product has a type, and then gives each product's id, name, type, applications and shown price |
| Assistant.ProductSelectionStep | farm/ai_queries.py:38-64 | the "no products" error exactly when nothing is selectable; the uncaught error exactly when a selectable product has no type; otherwise the list is exactly the formatted selectable products, in order, searchable exactly when there are more than five |
| Assistant.DoseInfos | farm/ai_queries.py:113-133 | at most two entries, spraying first exactly when supported and fertigation last exactly when supported, each with that method's dose, dose type and label |
| Assistant.DoseOptionsStep | farm/ai_queries.py:84-111 | "Producto no encontrado" exactly when the id names no product; the uncaught error for an id `int()` rejects or a product without type; otherwise the product's name, type, shown price and dose entries |
| Assistant.FieldSelectionStep | farm/ai_queries.py:137-155 | all fields, searchable exactly when more than five; title and message fall back to their defaults when absent |
| Assistant.NumberInputStep | farm/ai_queries.py:159-168 | each of title, message, placeholder, min and step falls back to its default when absent |
| Assistant.LineUnit | farm/ai_queries.py:184 | litres exactly when the dose type contains "l_", kilograms otherwise |
| Assistant.LineCost | farm/ai_queries.py:189 | the price times the total when a non-zero price is set, else 0 |
| Assistant.PerHectareLine | farm/ai_queries.py:178-204 | a line exactly when the method has a per-hectare dose, with dose times hectares as total, its unit and its cost |
| Assistant.HectareLines | farm/ai_queries.py:175-206 | at most two lines, each a per-hectare dose over the given hectares with its unit and cost |
| Assistant.HectareLinesPerApplication | farm/ai_queries.py:175-206 | the spraying line comes first exactly when the spraying dose is per hectare, the fertigation line last exactly when that one is, each with its method's dose |
| Assistant.MachineLines | farm/ai_queries.py:209-235 | a spraying dose per 1000 L gives dose times capacity over 1000 in its unit; a percentage gives dose times capacity over 100 in litres |
| Assistant.MachineLinesSprayingOnly | farm/ai_queries.py:209-235 | a line exactly for a spraying dose per 1000 L or in percent, carrying the spraying dose, the capacity and the cost |
| Assistant.CalculateForHectares | farm/ai_queries.py:175-206 | the lines built are HectareLines |
| Assistant.SameLine | farm/ai_queries.py:185-190 | one-line results with equal fields are equal |
| Assistant.CalculateForMachine | farm/ai_queries.py:209-235 | the lines built are MachineLines |
| Assistant.DoseTypeUnits | farm/ai_queries.py:184 | the L dose types give litres and the kg dose types kilograms |
| Assistant.NoLitrePrefix | farm/ai_queries.py:184 | a string without 'l' followed by '_' does not contain "l_" |
| Assistant.HectareLinesMatchTaskProduct | farm/ai_queries.py:175-206 | the assistant's per-hectare totals and units are those a task's product line stores (farm/models.py:229-240) for the same dose and area |
| Assistant.PerHectareMatches | farm/ai_queries.py:182-184 | a per-hectare dose gives the TaskProduct line's total and unit whatever the water |
| Assistant.MachineLinesMatchTaskProduct | farm/ai_queries.py:209-235 | a machine load of C litres needs what a task line stores for one hectare sprayed at C L/ha, in the same unit |
| Assistant.LoadMatchesTotal | farm/ai_queries.py:217-227 | the load share per 1000 L or per 100 equals the TaskProduct total for one hectare at that water volume |
| Assistant.DoseFlowContext | farm/ai_queries.py:275-281 | step 2 copies the selection to `product_id`, step 3 to `calc_type`, other steps leave the context alone |
| Assistant.CalculateFinalResult | farm/ai_queries.py:315-354 | "Producto no encontrado" exactly when the id names no product; an unknown calculation type is reported as such; a bad product id is the uncaught error. For hectares, the number read from the selection gives the hectare lines, and an unreadable selection is the uncaught error. For a field, the field the selection names gives its name, area and hectare lines; a bad id is the uncaught error and an unknown field "Parcela no encontrada". For a machine, the integer read from the selection is the capacity of the machine lines, and an unreadable one is the uncaught error |
| Assistant.FieldResultIsHectareResult | farm/ai_queries.py:325-334 | choosing a field gives the same lines as typing that field's area |
| Assistant.HandleDoseFlow | farm/ai_queries.py:271-313 | "Paso no válido" exactly for a step outside 1-4 or step 3 with an unknown choice; step 1 is product selection, step 2 the dose options of the selected product, step 4 the final result |
| Assistant.DoseFlowStepThreePrompts | farm/ai_queries.py:279-308 | step 3 answers with the hectares prompt, the field picker or the machine-capacity prompt, with their fixed texts and limits |
| Assistant.StepThreeAnswer | farm/ai_queries.py:279-308 | step 3 with a known choice answers with that choice's step over the context the prompt texts were merged into |
| Assistant.PromptAnswers | farm/ai_queries.py:284-308 | the merged prompt texts are the ones the steps show |
| Assistant.TypeNames | farm/ai_queries.py:370-374 | the type names in first-appearance order, none repeated |
| Assistant.TypeNamesPresent | farm/ai_queries.py:370-374 | a name is listed exactly when some product has that type |
| Assistant.TypeGroups | farm/ai_queries.py:369-379 | one group per type name present, none repeated, each holding exactly that type's products in order |
| Assistant.GroupsOfNames | farm/ai_queries.py:369-379 | groups built from the names present, one per name, form a grouping by type |
| Assistant.GroupByTypeName | farm/ai_queries.py:369-379 | the loop's dict keys are the type names in first-appearance order, and each holds exactly that type's products in order |
| Assistant.NamesStep | farm/ai_queries.py:372-374 | one loop pass extends the names seen with a new type name |
| Assistant.GroupsStep | farm/ai_queries.py:372-379 | one loop pass keeps each type's list equal to its products seen so far |
| Assistant.HandlePriceFlow | farm/ai_queries.py:356-388 | "Paso no válido" for any step but 1; the "no prices" error exactly when no product has a positive price; the uncaught error exactly when a priced product has no type; otherwise the priced products grouped by type |
| Assistant.Route | farm/ai_queries.py:251-269 | the menu exactly for "menu" or a falsy flow; "dosis", "precio", "tratamiento", "coste" go to their flows; "Flujo no reconocido" exactly for any other truthy flow |
| Assistant.RouteIgnoresContextFlowAndStep | farm/ai_queries.py:251-313 | the answer does not depend on the context's "flow" and "step" entries |
| Assistant.DoseFlowIgnoresContextFlowAndStep | farm/ai_queries.py:271-313 | no dose step depends on the context's "flow" and "step" entries |
| Assistant.PromptStepIgnoresContextFlowAndStep | farm/ai_queries.py:279-308 | step 3 does not depend on the context's "flow" and "step" entries |
| Assistant.PromptsIgnoreContext | farm/ai_queries.py:284-308 | the step 3 prompts are the same whatever context they are merged into |
| Assistant.ProductSelectionReads | farm/ai_queries.py:40 | product selection reads only `application_filter` |
| Assistant.DoseOptionsReads | farm/ai_queries.py:85 | the dose options read only `product_id` |
| Assistant.FinalResultReads | farm/ai_queries.py:316-318 | the final result reads only `product_id`, `calc_type` and `selection` |
| Assistant.NumberInputReads | farm/ai_queries.py:162-167 | the number prompt reads only its five texts |
| Assistant.FieldSelectionReads | farm/ai_queries.py:142-143 | the field picker reads only its title and message |
| Assistant.ProcessStep | farm/ai_queries.py:482-498 | flow defaults to "menu" and step to 1; a truthy `data` dict is merged over the base context and a truthy non-dict makes the merge raise; routing uses the request's own flow and step; every other context key comes from `data` |
| RecalculateCosts.Reprice | farm/management/commands/recalculate_treatment_costs.py:52-88 | unchanged exactly when the unit price already is the current price; a failure exactly when it differs and the price, the dose or the field area is missing (or the area is 0); otherwise unit price, total price (price times dose) and price per hectare (total over area) are replaced and nothing else |
| RecalculateCosts.Saved | farm/management/commands/recalculate_treatment_costs.py:51-71 | a line outside the product selection is not touched; only the three price columns can change, and a changed unit price is the current price |
| RecalculateCosts.SavedRows | farm/management/commands/recalculate_treatment_costs.py:51-71 | the table after a saving run is each line's saved form, position by position |
| RecalculateCosts.CountPartition | farm/management/commands/recalculate_treatment_costs.py:46-88 | updated, unchanged and errors add up to the number of selected lines |
| RecalculateCosts.SavedLineSettled | farm/management/commands/recalculate_treatment_costs.py:59-71 | a repriced line is unchanged on the next run and a failed one fails again; saving twice is saving once |
| RecalculateCosts.RerunUpdatesNothing | farm/management/commands/recalculate_treatment_costs.py:24-96 | running the command again after a saving run updates nothing and stores the same table |
| RecalculateCosts.CountStep | farm/management/commands/recalculate_treatment_costs.py:51-88 | each processed line moves exactly the counter of its outcome |
| RecalculateCosts.ProcessLine | farm/management/commands/recalculate_treatment_costs.py:52-88 | the loop body's outcome is Reprice of the line |
| RecalculateCosts.TreatmentProductTable.constructor | farm/management/commands/recalculate_treatment_costs.py:36 | the table holds the given lines |
| RecalculateCosts.TreatmentProductTable.RepriceRows | farm/management/commands/recalculate_treatment_costs.py:45-88 | the counters are Count of the table, and the table is unchanged on a dry run and the saved table otherwise |
| RecalculateCosts.TreatmentProductTable.RecalculateCosts | farm/management/commands/recalculate_treatment_costs.py:24-96 | the early return exactly when no line is selected; otherwise the report holds the dry-run flag and the counters of all selected lines; the table changes only on a run that saves, to the saved table |
| RecalculateDoses.SelectionConjunction | farm/management/commands/recalculate_treatment_doses.py:38-54 | the selection is the conjunction of the one-option filters, and with no option every line is selected |
| RecalculateDoses.Recompute | farm/management/commands/recalculate_treatment_doses.py:70-101 | a failure exactly when the dose rule raises; unchanged exactly when it completes with the same dose type, total and unit; an update carries the recomputed columns, which differ from the old ones |
| RecalculateDoses.Outcomes | farm/management/commands/recalculate_treatment_doses.py:69-101 | one outcome per line of the table |
| RecalculateDoses.OutcomeAt | farm/management/commands/recalculate_treatment_doses.py:69-101 | the outcome at each position is that line's own outcome |
| RecalculateDoses.Saved | farm/management/commands/recalculate_treatment_doses.py:84-85 | only the dose columns can change; a line outside the selection is untouched; an updated line gets the recomputed columns |
| RecalculateDoses.SavedRowAt | farm/management/commands/recalculate_treatment_doses.py:69-101 | each line of the saved table is the saved form of the old line |
| RecalculateDoses.CountPartition | farm/management/commands/recalculate_treatment_doses.py:63-101 | updated, unchanged and errors add up to the number of selected lines |
| RecalculateDoses.SavedLineSettled | farm/management/commands/recalculate_treatment_doses.py:77-85 | a saved line is not updated again, because the dose rule is idempotent on its own result |
| RecalculateDoses.RerunUpdatesNothing | farm/management/commands/recalculate_treatment_doses.py:32-109 | running the command again after a saving run updates nothing |
| RecalculateDoses.ProcessLine | farm/management/commands/recalculate_treatment_doses.py:70-101 | the loop body's outcome is Recompute of the line |
| RecalculateDoses.DoseLineTable.constructor | farm/management/commands/recalculate_treatment_doses.py:54 | the table holds the given lines |
| RecalculateDoses.DoseLineTable.ProcessRows | farm/management/commands/recalculate_treatment_doses.py:63-101 | the counters are Count of the table, and the table is unchanged on a dry run and the saved table otherwise |
| RecalculateDoses.DoseLineTable.RecalculateDoses | farm/management/commands/recalculate_treatment_doses.py:32-109 | the early return exactly when no line is selected; otherwise the report holds the dry-run flag and the counters; the table changes only on a run that saves, to the saved table |
| DelayedStatus.Marked | farm/management/commands/update_delayed_treatments.py:13-22 | the scheduling data never changes; a row outside the window (pending, unfinished, dated from three days ago through yesterday) is left as it is; a row inside it is stored as delayed |
| DelayedStatus.MarkedRows | farm/management/commands/update_delayed_treatments.py:20-22 | the table after the run is each row marked, position by position |
| DelayedStatus.OutsideWindowUntouched | farm/management/commands/update_delayed_treatments.py:12-18 | a row dated today or later, or earlier than three days back, is never touched |
| DelayedStatus.RerunSelectsNothing | farm/management/commands/update_delayed_treatments.py:13-19 | a second run on the same day selects no row |
| DelayedStatus.ScheduleTable.constructor | farm/management/commands/update_delayed_treatments.py:13 | the table holds the given rows |
| DelayedStatus.ScheduleTable.UpdateDelayed | farm/management/commands/update_delayed_treatments.py:9-23 | the reported count is the number of rows in the window, and the table becomes the marked table; the tasks command at farm/management/commands/update_delayed_tasks.py:9-23 is the same rule over the tasks table |
| DelayedStatus.ScheduleTable.MarkSelected | farm/management/commands/update_delayed_treatments.py:20-22 | the loop stores the marked form of every row |
| TreatmentForm.ScalingOf | static/js/treatment-form.js:237-243 | a per-hectare scaling exactly when the dose type contains "_per_ha", and per 1000 L exactly when it does not but contains "_per_1000l"; the form looks for the substrings in that order |
| TreatmentForm.EstimateTotal | static/js/treatment-form.js:232-243 | the estimate is dose × area per hectare, dose × water × area / 1000 (or / 2000) per water volume, and 0 for a type the form does not scale |
| TreatmentForm.DoseFromTotal | static/js/treatment-form.js:272-282 | undefined (a non-finite result) exactly when the divisor, the area or the total spray water, is zero; 0 for a type the form does not scale |
| TreatmentForm.DoseFromEstimate | static/js/treatment-form.js:232-282 | recovering the dose from the estimated total gives back the dose whenever area and water are positive |
| TreatmentForm.EstimateFromDose | static/js/treatment-form.js:232-282 | estimating from a recovered dose gives back the typed total |
| TreatmentForm.ScalingOfDoseTypes | static/js/treatment-form.js:237-243 | the stored dose types l_per_ha and kg_per_ha scale per hectare, l_per_1000l and kg_per_1000l per 1000 L of water, and percent not at all |
| TreatmentForm.LitresPerThousandNotPerHa | static/js/treatment-form.js:237-239 | "l_per_1000l" does not contain "_per_ha" but does contain "_per_1000l" |
| TreatmentForm.KilosPerThousandNotPerHa | static/js/treatment-form.js:237-239 | "kg_per_1000l" does not contain "_per_ha" but does contain "_per_1000l" |
| TreatmentForm.EstimateMatchesServerTotal | static/js/treatment-form.js:232-243 | for the four per-hectare and per-1000 L dose types the browser's estimate equals the total the server stores (farm/models.py:229-240); for percent the form estimates 0 |
| TreatmentForm.EstimateMatchesPerHa | static/js/treatment-form.js:237-238 | for a per-hectare type both sides are dose × area |
| TreatmentForm.EstimateMatchesPer1000L | static/js/treatment-form.js:239-240 | for a per-1000 L type both sides are dose × water × area / 1000 |
| TreatmentForm.UnitOf | static/js/treatment-form.js:234 | "kg" exactly when the dose type mentions kg, "L" otherwise |
| TreatmentForm.LimitDecimalPlaces | static/js/treatment-form.js:297-310 | when the text splits on points into at least two parts and the second part has more than two characters, it becomes the first part, a point and the first two characters of the second; otherwise it is left exactly as it was |
| TreatmentForm.LimitDecimalPlacesIdempotent | static/js/treatment-form.js:297-310 | applying the guard to its own output changes nothing |
| TreatmentForm.LimitDecimalPlacesTruncates | static/js/treatment-form.js:303-307 | "1.234" becomes "1.23" |
| TreatmentForm.LimitDecimalPlacesKeepsSecondPoint | static/js/treatment-form.js:303-305 | "1.23.45" is left alone, as only the part after the first point is measured |
| TreatmentForm.LimitDecimalPlacesDropsTail | static/js/treatment-form.js:303-307 | "1.234.5" becomes "1.23": a second point and what follows are lost |
| TreatmentForm.RowAfterEstimate | static/js/treatment-form.js:208-247 | a row without a known product loses its estimate; a row whose total was edited last and is non-empty keeps it; a zero dose clears it; otherwise the estimate is the rounded EstimateTotal and the unit follows the dose type; product, dose and index never change |
| TreatmentForm.ProductRows.constructor | static/js/treatment-form.js:5-7 | the rows the page was rendered with, no edit marks, the counter read from the page and the given formset maximum; the rows are indexed exactly when the counter is their number and each carries its position |
| TreatmentForm.ProductRows.CalculateTotalDoses | static/js/treatment-form.js:202-248 | nothing happens without a field; otherwise every row becomes RowAfterEstimate of it, with its own edit mark; counter and marks are unchanged and the formset numbering is kept |
| TreatmentForm.ProductRows.CalculateDoseFromTotal | static/js/treatment-form.js:250-285 | the row's mark becomes "total"; the row is untouched without product or field; a zero total clears the dose; otherwise the dose is the rounded DoseFromTotal, blank when that is undefined; no other row changes |
| TreatmentForm.ProductRows.HandleDoseChange | static/js/treatment-form.js:287-295 | the row's mark becomes "dose" and every row is re-estimated as in CalculateTotalDoses |
| TreatmentForm.ProductRows.AddProductRow | static/js/treatment-form.js:318-385 | refused exactly when the counter has reached the maximum; below it, with no row left to clone, the TypeError of `null.cloneNode` (322); in both cases nothing changes; otherwise an empty row with the counter as its index is appended, its mark reset and the counter incremented |
| TreatmentForm.ProductRows.RemoveRow | static/js/treatment-form.js:362-365 | the row at k is gone, the others keep their order and are renumbered by position, and the counter is their number |
| TreatmentForm.ProductRows.UpdateFormIndexes | static/js/treatment-form.js:387-398 | every row is renumbered by its position, nothing else in it changes, and the counter becomes the number of rows |
| TreatmentForm.ProductRows.ResetProductsTable | static/js/treatment-form.js:62-88 | only the first row is left; it keeps its product when the catalogue still offers it and loses it otherwise, its dose and estimate are cleared and its unit reads "-"; the counter becomes 1 even when no row is left; the edit marks are untouched and numbering is kept |
| TreatmentForm.ValidateCompletedDate | static/js/treatment-form.js:176-199 | valid exactly when the completion date is empty or not after today |
| TreatmentForm.NextDisabled | static/js/treatment-form.js:413-435 | the next button is enabled exactly when field, type, name and date are filled, spraying also has machine and water, and the completion date is valid |
| TreatmentForm.AfterTypeChange | static/js/treatment-form.js:438-478 | only machine and water can change; spraying keeps the machine and gets water 850 when the water is blank or 0, otherwise keeps it; fertigation clears the machine and sets water to 0; other types change nothing |
| TreatmentForm.SprayingTypeChangeFillsWater | static/js/treatment-form.js:451-463 | after choosing spraying with a machine (and the other required inputs), the next button is enabled, because the water default fills the water input |
| TreatmentForm.ValidProductRows | static/js/treatment-form.js:528-532 | empty exactly when no row has both a product and a dose |
| TreatmentForm.ValidateForm | static/js/treatment-form.js:481-552 | accepted exactly when name, date and type are filled, spraying has machine and water, some row has a product and a dose, and the completion date is valid; a rejection returns to step 1 or 2, and to step 2 only when no row is valid |
| FieldCosts.CostsOf | static/js/field-costs.js:196 | the costs per hectare of the fields, one per field in order |
| FieldCosts.MaxOf | static/js/field-costs.js:197 | a cost of the list that no other cost exceeds |
| FieldCosts.MinOf | static/js/field-costs.js:198 | a cost of the list that no other cost undercuts |
| FieldCosts.Normalized | static/js/field-costs.js:199-202 | 0.5 when all costs are equal; otherwise a cost within the range lies in [0, 1], the dearest is 1 and the cheapest 0 |
| FieldCosts.UnitInterval | static/js/field-costs.js:202 | a part of a positive range divided by the range lies in [0, 1], and the whole range gives 1 |
| FieldCosts.GetProgressColor | static/js/field-costs.js:192-210 | always one of the five badge colours; "primary" with at most one field; otherwise the colour of the normalized cost's fifth |
| FieldCosts.ProgressColorExtremes | static/js/field-costs.js:192-210 | among differing costs the dearest field is "danger" and the cheapest "success"; when all costs are equal every card is "primary" |
| FieldCosts.TypeLabel | static/js/field-costs.js:166 | the product type name when it is present and non-empty, "Sin categoría" otherwise |
| FieldCosts.RenderProductTypeBreakdown | static/js/field-costs.js:148-189 | the no-data message exactly when the breakdown is missing or empty; otherwise one bar per entry in order, with its label, amount, share of the card's total and the colour cycling through the seven bar colours; the view is `FieldCosts.BreakdownOf` of the entries |
| FieldCosts.Share | static/js/field-costs.js:165 | defined exactly when the total is non-zero, and then the share times the total is the part times 100 |
| FieldCosts.SharesSumScaled | static/js/field-costs.js:154-165 | the shares of all entries add up to their summed amount over the total, times 100 |
| FieldCosts.BreakdownPercentsSumTo100 | static/js/field-costs.js:154-165 | with a non-zero total the bars' percentages add up to 100, before rounding |
| FieldCosts.RenderFieldCards | static/js/field-costs.js:90-145 | the fields are sorted in place, dearest per hectare first, stably, and each card shows its field in that order with the colour GetProgressColor gives among the sorted fields and its own breakdown view (`FieldCosts.BreakdownOf`) |
| FieldCosts.RenderCards | static/js/field-costs.js:96-144 | one card per field in the given order, each with its field, the colour GetProgressColor gives among those fields and its breakdown view |
| FieldCosts.TopFields | static/js/field-costs.js:309 | at most eight fields, dearest first, drawn from the given ones, and none of the fields left out costs more per hectare than one kept |
| FieldCosts.PrepareFieldCostChartData | static/js/field-costs.js:307-334 | one chart row per top field, with its name, total cost and cost per hectare |
| FieldCosts.Clamp | static/js/field-costs.js:356-358 | a value in 0..255: the number itself when it lies there, 0 below and 255 above |
| FieldCosts.HexDigitValue | static/js/field-costs.js:344 | the value of a hexadecimal digit, and -1 for any other character |
| FieldCosts.HexRun | static/js/field-costs.js:344 | the length of the longest prefix of hexadecimal digits: all characters before it are digits and the next one is not |
| FieldCosts.ParseHex | static/js/field-costs.js:344 | NaN (None) exactly when the text does not start with a hexadecimal digit |
| FieldCosts.HexChar | static/js/field-costs.js:353 | a lower-case hexadecimal digit whose value is the given one |
| FieldCosts.HexDigits | static/js/field-costs.js:353 | exactly k lower-case hexadecimal digits |
| FieldCosts.HexDigitsValue | static/js/field-costs.js:344-353 | below 16^k, the k-digit text reads back as the number it renders |
| FieldCosts.RgbHex | static/js/field-costs.js:353 | the padded hexadecimal text of three channels has exactly six digits |
| FieldCosts.ColorNumber | static/js/field-costs.js:353 | the colour number of three channels is below 2^24 |
| FieldCosts.ShadedChannels | static/js/field-costs.js:344-351 | each shaded channel lies in 0..255 |
| FieldCosts.LightenDarkenColor | static/js/field-costs.js:337-354 | a colour with a leading '#' gives '#' and six digits; one without gives six digits |
| FieldCosts.RgbHexRoundTrip | static/js/field-costs.js:344-353 | parsing the six-digit text of three channels gives back their colour number |
| FieldCosts.ChannelsOfRgb | static/js/field-costs.js:345-347 | the shifts and masks recover the three channels a colour number was built from |
| FieldCosts.LightenDarkenChannels | static/js/field-costs.js:337-354 | reading the shaded colour back gives each channel of the original moved by the amount and clamped to 0..255 |
| FieldCosts.HexRunAll | static/js/field-costs.js:344 | a text made only of hexadecimal digits is read whole |
| FieldCosts.PaletteHasPound | static/js/field-costs.js:289-293 | every palette entry is '#' and six characters |
| FieldCosts.PrepareProductTypeChartData | static/js/field-costs.js:284-304 | one label and one value per type; the first min(n, 12) palette colours as backgrounds; and each hover colour is its background darkened by 20 |
| FieldCosts.HoverColorsArePound | static/js/field-costs.js:300 | every hover colour keeps the '#' form of seven characters |
| SmartSelectWidget.SearchResults | static/js/smart-select.js:75-84 | every choice when the lower-cased, trimmed text is empty; otherwise exactly the choices whose lower-cased label contains it |
| SmartSelectWidget.AddChoice | static/js/smart-select.js:143-151 | the selection is unchanged when the value is already chosen, and the choice is appended otherwise |
| SmartSelectWidget.WithoutValue | static/js/smart-select.js:163-166 | no pill with the value is left, every remaining pill was there before, and every pill with another value stays |
| SmartSelectWidget.HiddenValue | static/js/smart-select.js:241-243 | the first selected value, or the empty string with nothing selected |
| SmartSelectWidget.NextHighlight | static/js/smart-select.js:95-98 | one past the highlight, capped at the last filtered option |
| SmartSelectWidget.PreviousHighlight | static/js/smart-select.js:105 | one before the highlight, but never below -1 (no highlight) |
| SmartSelectWidget.AddChoiceDistinct | static/js/smart-select.js:143-151 | selecting keeps the chosen values distinct, and the chosen values become the old ones plus the new value |
| SmartSelectWidget.RemoveValueSelected | static/js/smart-select.js:163-166 | after removing a value, a value is chosen exactly when it was chosen before and is not the removed one |
| SmartSelectWidget.RemoveValueDistinct | static/js/smart-select.js:163-166 | removing keeps the chosen values distinct |
| SmartSelectWidget.RemoveUndoesSelect | static/js/smart-select.js:143-166 | removing the value just selected restores the selection it was added to |
| SmartSelectWidget.DeclaresWidget | static/js/smart-select.js:6-56 | the script declares the widget exactly when every note line of its constructor is a JavaScript comment |
| SmartSelectWidget.AsWrittenDeclaresNoWidget | static/js/smart-select.js:19 | as written, line 19 is no comment, so no widget is declared; with it read as a comment the widget is declared |
| SmartSelectWidget.SmartSelect.constructor | static/js/smart-select.js:7-56 | with line 19 read as a comment (see Findings): choices and selection come from the data block, and both are empty when the block is missing or does not parse; the list shows every choice, closed, without highlight, and the hidden input holds the first selected value |
| SmartSelectWidget.SmartSelect.OpenDropdown | static/js/smart-select.js:129-133 | the list is open and nothing else changes |
| SmartSelectWidget.SmartSelect.CloseDropdown | static/js/smart-select.js:135-141 | the list is closed without highlight, and nothing else changes |
| SmartSelectWidget.SmartSelect.UpdateHiddenInput | static/js/smart-select.js:241-247 | the hidden input holds HiddenValue of the selection, and nothing else changes |
| SmartSelectWidget.SmartSelect.HandleSearch | static/js/smart-select.js:75-89 | the list shows SearchResults of the typed text, open and without highlight; the selection is unchanged |
| SmartSelectWidget.SmartSelect.SelectChoice | static/js/smart-select.js:143-161 | the selection becomes AddChoice of the choice and the hidden input follows it; the search is cleared, every choice shown, no highlight; the list stays closed unless the focus call reopens it |
| SmartSelectWidget.SmartSelect.RemoveChoice | static/js/smart-select.js:163-170 | the selection loses every pill with the choice's value and the hidden input follows; nothing else changes |
| SmartSelectWidget.SmartSelect.HandleKeydown | static/js/smart-select.js:91-127 | the arrows move the highlight within -1 and the last option, and down opens the list; Enter selects the highlighted option of an open list; Escape closes; Backspace in an empty search removes the last pill's value; other keys change nothing; the widget's invariant is kept |
| CrudGenerator.BuildField | farm/django_crud_generator.py:62-100 | the field keeps the match's name and kind and gets the generated readable name; it is required exactly when its definition says neither null=True nor blank=True; only a CharField carries a maximum length, and exactly a ForeignKey carries a related model |
| CrudGenerator.FieldsOf | farm/django_crud_generator.py:59-102 | never more fields than matches, and never an inherited column (organization, created_at, updated_at, id) |
| CrudGenerator.FieldsOfMembers | farm/django_crud_generator.py:59-102 | a field is extracted exactly when it is built from a match whose name is not an inherited column |
| CrudGenerator.OptionalWhenNullable | farm/django_crud_generator.py:91-93 | a definition containing null=True or blank=True anywhere gives an optional field |
| CrudGenerator.ExtractModelFields | farm/django_crud_generator.py:34-102 | the ValueError exactly when the model's class is not found; otherwise FieldsOf of the class body's matches |
| CrudGenerator.TitleFrom | farm/django_crud_generator.py:148 | the title-cased text has the length of the original |
| CrudGenerator.Title | farm/django_crud_generator.py:148 | str.title keeps the length of the text |
| CrudGenerator.TitleFromAt | farm/django_crud_generator.py:148 | each title-cased character depends only on itself and on whether the character before it is a letter |
| CrudGenerator.TitleAt | farm/django_crud_generator.py:148 | a letter is upper case exactly when it starts a run of letters, lower case inside one; other characters are kept |
| CrudGenerator.GenerateVerboseName | farm/django_crud_generator.py:128-148 | the known readable name for the fifteen common field names; any other name keeps its length |
| CrudGenerator.VerboseNameAt | farm/django_crud_generator.py:148 | in an unknown name each underscore becomes a space and every word starts with a capital, the rest of it in lower case |
| CrudGenerator.KnownVerboseName | farm/django_crud_generator.py:135 | planting_year reads as the stored text "A√±o de plantaci√≥n" |
| CrudGenerator.ModelVerboseName | farm/django_crud_generator.py:813-821 | the Spanish name of Field, Machine, Product and ProductType, and the class name itself for any other model |
| CrudGenerator.UnknownModelKeepsName | farm/django_crud_generator.py:813-821 | Expense keeps its class name, Product reads "Producto" |
| CrudGenerator.AnyForeignKey | farm/django_crud_generator.py:157 | true exactly when some field is a ForeignKey |
| CrudGenerator.NeedsFilters | farm/django_crud_generator.py:150-160 | filters exactly for the product model (in any case), for more than four fields, or for any relation |
| CrudGenerator.NeedsFiltersMonotone | farm/django_crud_generator.py:150-160 | adding fields to a model never takes its filters away |
| CrudGenerator.ContentColumn | farm/django_crud_generator.py:184-188 | the narrow results column exactly beside the filters, the full width otherwise |
| CrudGenerator.MainFields | farm/django_crud_generator.py:242 | the first three fields (or fewer when fewer qualify) other than name, description and comments, all drawn from the model's fields |
| CrudGenerator.MainFieldsSkipHidden | farm/django_crud_generator.py:242 | a name, description or comments field is passed over |
| CrudGenerator.MainFieldsTakeShown | farm/django_crud_generator.py:242 | a first field that may be shown comes first, ahead of the first two that follow it |
| CrudGenerator.MainFieldsIgnoreLater | farm/django_crud_generator.py:242 | once three fields qualify, later fields never change the card |
| CrudGenerator.CardLineOf | farm/django_crud_generator.py:244-258 | the line shows the field's readable name, and its display value exactly for a non-relation with a non-empty choices list, the raw value otherwise |
| CrudGenerator.CardLines | farm/django_crud_generator.py:241-258 | one card line per main field, in order, and never more than three |
| CrudGenerator.ColumnClass | farm/django_crud_generator.py:535 | half width exactly for a non-text field of a form with more than four fields, full width otherwise |
| CrudGenerator.LabelSuffix | farm/django_crud_generator.py:541 | no suffix exactly for a required field, " (opcional)" otherwise |
| CrudGenerator.WidgetOf | farm/django_crud_generator.py:544-598 | a text area exactly for a TextField, a related select exactly for a ForeignKey, a date input exactly for a date or datetime without choices, and a number input exactly for the numeric kinds among plain inputs |
| CrudGenerator.FormControlOf | farm/django_crud_generator.py:534-602 | the control joins the column, the readable name, the suffix and the widget, with a help note exactly when the field has help text |
| CrudGenerator.FormControls | farm/django_crud_generator.py:533-605 | one control per field, in order |
| CrudGenerator.SmallFormFullWidth | farm/django_crud_generator.py:535-541 | in a form of at most four fields every control is full width, and an optional field is marked as such |
| CrudGenerator.GenerateUrls | farm/django_crud_generator.py:750-771 | four routes whose names are the lower-case model name followed by -list, -create, -edit and -delete |
| CrudGenerator.RouteNamesDistinct | farm/django_crud_generator.py:764-767 | route names never clash: the four of one model differ, and models whose lower-case names differ share none |

## Left out

- **Output and rendering.** Output is not modelled: the commands' stdout messages, HTTP status pages beyond the decision, template rendering, the DOM, `fetch`, Chart.js, FullCalendar and Bootstrap. Where the code builds markup, the model keeps the data each fragment carries.
- **Rendering that only fills the page.** These are left out for the same reason:
  - in the treatment form: `populateProductSelects` and `updateProductsTableOptions` (apart from their effect on the row `ResetProductsTable` keeps), `updateProductInfo`, `showStep` and the field and machine info texts;
  - in the dashboard: `updateDashboard` and `updateCharts`;
  - in the widget: `renderPills`, `renderOptions` and `updateHighlight`.
- **Clocks.** `date.today()`, `timezone.now()` and `new Date()` are parameters.
- **Rounding and formatting.** `round`, `toFixed`, `toLocaleString`, `float()`/`parseFloat` casts are either exact reals or function parameters. The text `Infinity` that `calculateDoseFromTotal` would write for a zero divisor is modelled as a blank dose.
- **Query semantics.** A filter on a treatment's own columns is a sequence filter. A filter across a to-many relation repeats each row once per matching related row (`TreatmentViews.JoinQuery`).
  - The order among the copies of one treatment is not specified by the database. The model puts them side by side.
  - `order_by` and `annotate` are stable sorts of the given order. Ties, which the database leaves unspecified, keep their first appearance.
  - The assistant's `order_by('name')` and `order_by('product_type__name', 'name')` are taken as the order of the lists it is handed.
  - `transaction.atomic` is not modelled.
- **The assistant's other flows.**
  - `_handle_treatment_flow` and `_handle_cost_flow` (farm/ai_queries.py:390-474) are not part of this model. The router's dispatch to them is modelled; they only query and format recent treatments and cost totals.
  - The menu's fixed options are not represented.
- ApiViews.FieldCostsData: takes the date bounds as already-parsed day numbers, so two errors of the endpoint are not modelled. A non-empty `date_from` or `date_to` that is not a date makes `parse_date` return None, and that None bound reaches the `date__gte` filter and `get_treatments_cost`; an impossible date such as 2024-02-30 makes `parse_date` raise ValueError (farm/api_views.py:151-154). A `field_ids` entry that is not a number makes the `id__in` filter raise (farm/api_views.py:157-161). The ids are taken as integers.
- RecalculateCosts.Reprice: rests on a model the source does not show. Both recalculation commands import `TreatmentProduct` (recalculate_treatment_costs.py:6, recalculate_treatment_doses.py:4), which farm/models.py does not define; it defines `TaskProduct` (farm/models.py:186). For this command the model assumes `unit_price`, `total_price` and `price_per_ha` columns and a `treatment.field.area`.
- RecalculateDoses.Recompute: rests on the same unshown `TreatmentProduct`. The model assumes its `calculate_total_dose` follows `TaskProduct`'s dose rule (`FarmModels.Recalculate`) and sets `dose_type`, `total_dose` and `total_dose_unit`.
- TreatmentForm.ProductRows.ResetProductsTable: the hidden `#product-default-dose` input it also clears is not part of a row.
- **`get_treatments_cost`.** The cost roll-up of the field-costs endpoint calls it, and it is not shown. It is a parameter of `ApiViews.FieldCostsData`.
- **Calendar status fields.** The calendar's `status` and `status_display` fields of a treatment are not modelled, because the treatment model they come from is not shown.
- **`TaskProduct.save`.** It (farm/models.py:242-245) recomputes and then saves. It is covered by `FarmModels.TaskProduct.CalculateTotalDose` and `FarmModels.RecalculateIdempotent`; the database write itself is not modelled.
- **`Lower`.** `Common.Lower`, `Common.Trim` and `CrudGenerator.Title`: ASCII only, because `lower()`, `toLowerCase()`, `trim()` and `title()` on other Unicode letters are not modelled.
- **Number syntax.** `Common.ParseInt`, `Common.ParseDecimal` and `Common.IsDigits` accept only an optional sign and ASCII digits. Python accepts more:
  - `int(" 12")` strips whitespace, which `LegacyViews.TreatmentRecord.FinishTreatment` would accept;
  - `float()` reads exponents, `inf` and underscores, which `Assistant.ToFloat` would accept;
  - `str.isdigit` accepts other Unicode digits, which `ApiViews.DigitTokens` would keep.
- FieldCosts.ParseHex: does not take the leading sign or whitespace that JavaScript's `parseInt(s, 16)` skips, nor the `0x` prefix it ignores. The dashboard passes only palette colours, which have none of these.
- DelayedStatus.ScheduleTable.UpdateDelayed: rests on code the source does not show. `update_delayed_treatments.py:3` imports `Treatment`, which farm/models.py does not define. `update_delayed_tasks.py:13-17` filters `Task` on `status`, which is a method (farm/models.py:147), not a column. `update_status()` (line 21 of both files) is defined nowhere. The model assumes a stored `status` column and that `update_status` stores the status the dates give (`FarmModels.Status`).
- **Template tags in the treatment form script.** `static/js/treatment-form.js:7` and `:11-12` contain Django template tags. The model takes them as rendered, so `maxForms` is the formset's integer maximum.
- **The audit action in Django's edit views.** `Mixins.AuditAction` takes the presence of the view's `object` attribute as a parameter. Django's generic create and update views both set `object` before `form_valid`; those views are not part of this model. If they are the callers, the action logged would always be "update".
- **The CRUD generator's own machinery.** File reading and writing, `argparse`, `print` and the `re` engine are left out. The rules work on the matches the patterns would find, handed over in the order the generator visits them, pattern by pattern.
- **The generator's field definitions.**
  - `_get_full_field_definition` searches for the field name anywhere, so it can pick a longer name that ends with it. The model takes the definition text per match.
  - `_extract_choices` is represented by its result.
  - The generated code and markup text is not modelled beyond the data listed in the table.
- **`FieldCosts.LightenDarkenColor`.** The shifts are modelled as division by powers of two. This agrees with JavaScript's 32-bit `>>` in value and in sign for texts of up to seven hexadecimal digits, which covers every colour the dashboard passes.
- Assistant.ShownPrice, Assistant.LineCost, Assistant.HandlePriceFlow: rest on a `price` field of `Product` that farm/models.py:47-110 does not define; the model's `FarmModels.Product.price` is that assumed field. The same holds for the costs in `Assistant.PerHectareLine`. As written, these flows never run at all: farm/ai_queries.py:3 imports `Treatment`, `TreatmentProduct` and `ExpenseType` from `farm.models`, which defines none of them, so importing the module raises ImportError.
- TreatmentForm.ValidateCompletedDate: assumes a browser time zone at or east of UTC. `new Date('YYYY-MM-DD')` reads the date as midnight UTC, and `setHours(0, 0, 0, 0)` then moves it to the start of the local day that instant falls in (static/js/treatment-form.js:184-187). West of UTC that is the day before, so tomorrow's date compares equal to today and is accepted. The model compares day numbers.
- **Closing after a click.** The document click handler (static/js/smart-select.js:65-69) closes the list when the click target is not inside the widget. Clicking an option runs `selectChoice`, whose `renderOptions` detaches the clicked element. When the click then reaches the document, its target is no longer inside the widget, so the list is closed again even if the focus call reopened it. `SmartSelectWidget.SmartSelect.SelectChoice` models the option's own handler only; this second close is not modelled, because it depends on the browser's event order.
- **Markup.** `FieldCosts.RenderFieldCards` and `FieldCosts.RenderProductTypeBreakdown` return the cards and bars as values. The HTML string they concatenate is not modelled.

## Findings

| source | as written | input that shows it | evidently intended | confidence | as-written member | corrected member |
|---|---|---|---|---|---|---|
| accounts/middleware.py:19 | the throttle compares `(now - last_activity).seconds` with 60, and `.seconds` is only the seconds part of the time difference, ignoring whole days | last activity one day and 30 seconds ago: `.seconds` is 30, so activity is not updated although more than a day has passed (`UserTracking.DayOldActivityNotUpdated`) | compare the total elapsed seconds with 60 | not executed | UserTracking.UserTrackingMiddleware.Call | UserTracking.UserTrackingMiddleware.CallIntended |
| farm/models.py:204 | `calculate_total_dose` starts with `self.product.get_dose_for_application(task_type)`, a method `Product` does not define | any line, for example 2 L/ha of a product on a 10 ha spraying task: AttributeError, and `TaskProduct.save` never stores it | read the product's `get_dose` and `get_dose_type` for that Task's type | not executed | FarmModels.UndefinedLookupFailsSettledLine | FarmModels.Recalculate |
| static/js/smart-select.js:19 | the constructor holds the line `# Get data`, which in JavaScript is neither a comment nor a private name | loading the script: a SyntaxError, so `SmartSelect` is never declared and no widget is built | `// Get data`, a comment | not executed | SmartSelectWidget.AsWrittenDeclaresNoWidget | SmartSelectWidget.SmartSelect.constructor |
