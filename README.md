# Architecture office: lead pricing and project bookkeeping, in Dafny

This project models the computational core of a small architecture-office web
application. The office:

- keeps **leads** (prospective jobs) on a CRM board;
- prices each lead with a **cost simulation**;
- converts won leads into **projects**, each with phases, sub-phases and payments;
- shows a **dashboard** of deadlines and money still to receive;
- schedules **appointments**.

All of this is modelled. Every React handler becomes a pure function on explicit state:

- a read-only flag or a `window.confirm` answer is a `bool` parameter;
- "the handler returns without saving" is `None`;
- `Date.now()`-derived ids are a `stamp` parameter, and "now" and "today" are parameters too;
- dates are integer day numbers;
- money, percentages and hours are `real`.

The parts where the source works step by step keep that form:

- the accumulator loops of `calculateTotals`;
- its in-place rewrite of each variable item's `calculatedCost`;
- the notice list the dashboard builds with `push`.

These are methods with loop invariants, proved against specification functions.

Modules, one per source file (plus helpers):

| module | models |
|---|---|
| `PricingWaterfall` | `calculateTotals`: office, variable, team and complexity subtotals, then the profit → negotiation → discount → tax chain |
| `LeadSimulation` | catalogue seeding, duration sync, the item and factor handlers, save, load and conversion on the lead page |
| `StagePricing` | the stage/item pricing editor and its per-stage cost fold |
| `ProjectDetail` | payment, phase and sub-phase handlers, progress, date formatting |
| `Crm` | the lead board's filter and sort pipeline, client matching, conversion |
| `ProjectsPage` | the project list's filter and sort pipeline, the save/merge of the project form |
| `Dashboard` | deadline classification, counts, the notice collection and its danger-first order |
| `AppointmentForm` | attendee parsing, all-day normalisation, the saved appointment, task choices |
| `Constants` | the seed data: team, office catalogue, complexity factors, stage template |
| `Domain`, `Wrappers`, `Collections`, `Text`, `Sorting` | the records of `types.ts`, `Option` and `x \|\| d` defaults, sums and filters, string helpers, a stable insertion sort standing for `Array.prototype.sort` |

## Model

| member | source | states |
|---|---|---|
| PricingWaterfall.SumOfficeItems | pages/LeadDetailPage.tsx:186-189 | the office loop's result is the office subtotal: applied items' `calculatedCost` only |
| PricingWaterfall.OfficeSubtotalIsSumOfApplied | pages/LeadDetailPage.tsx:186-189 | the office subtotal equals the sum of `calculatedCost` over exactly the applied items |
| PricingWaterfall.RecomputeVariableCosts | pages/LeadDetailPage.tsx:192-196 | every variable item keeps all fields except `calculatedCost`, which becomes `baseValue × (quantity \|\| 1)` |
| PricingWaterfall.RecomputeVariableItems | pages/LeadDetailPage.tsx:192-196 | the loop rewrites the array in place to the recomputed items and returns their subtotal |
| PricingWaterfall.SumStageItems | pages/LeadDetailPage.tsx:198-205 | the nested loop returns the sum of the per-stage costs (hours or 0 × the responsible's rate or 0) |
| PricingWaterfall.SumComplexity | pages/LeadDetailPage.tsx:209-212 | the complexity loop returns the specified complexity value |
| PricingWaterfall.ComplexityIsLinear | pages/LeadDetailPage.tsx:209-212 | factors do not compound: the complexity value is the direct cost times the sum of applied percentages / 100 |
| PricingWaterfall.CalculateTotals | pages/LeadDetailPage.tsx:185-244 | every named total equals the waterfall of the form, and the variable items are left recomputed |
| PricingWaterfall.WaterfallClosedForm | pages/LeadDetailPage.tsx:207-242 | final value = direct × (1+C) × (1+p) × (1+n) × (1−d) × (1+t), and the value "with discount" equals the final value |
| PricingWaterfall.ClosedFormMonotone | pages/LeadDetailPage.tsx:214-224 | with non-negative inputs and discount ≤ 100, the closed form grows with profit, negotiation and tax and shrinks with the discount |
| PricingWaterfall.FinalValueMonotone | pages/LeadDetailPage.tsx:214-224 | the same monotonicity, stated on the waterfall itself |
| PricingWaterfall.DirectIgnoresPercentages | pages/LeadDetailPage.tsx:207 | changing profit, negotiation, discount or tax leaves the direct cost as it was |
| PricingWaterfall.WorkedExample | pages/LeadDetailPage.tsx:185-244 | office 1600 applied for 1 month, variable 500, 2 h at 150, profit 25%, tax 6%: contribution 240, direct 1040, final 1378 |
| PricingWaterfall.VariableRowCostDisplayed | pages/LeadDetailPage.tsx:475 | the row's displayed `baseValue × (quantity \|\| 0)` agrees with the priced cost exactly when the quantity is non-zero or the base value is 0 |
| Domain.FindMember | pages/LeadDetailPage.tsx:201 | a found member is in the team with that id; none found means no member has it |
| LeadSimulation.FindByConfigId | pages/LeadDetailPage.tsx:63 | a found item is simulated for that catalogue entry; none found means no item is |
| LeadSimulation.SeedAll | pages/LeadDetailPage.tsx:62-66 | one seeded item per catalogue entry, position by position |
| LeadSimulation.SeedingWithoutSimulation | pages/LeadDetailPage.tsx:51-67 | with nothing simulated: one applied monthly item per non-archived entry, in catalogue order, with its name and base value and quantity = duration |
| LeadSimulation.SeedingPricesConsistently | pages/LeadDetailPage.tsx:144-149 | every seeded item costs base value × quantity, whatever was simulated |
| LeadSimulation.SeedingKeepsSimulatedChoices | pages/LeadDetailPage.tsx:63-65 | an entry already simulated keeps that item's applied flag and quantity |
| LeadSimulation.SeedingWithoutSimulationSubtotal | pages/LeadDetailPage.tsx:142-150 | with nothing simulated, the seeded office subtotal is duration × the catalogue's monthly total |
| LeadSimulation.SeedingUnarchivedCatalogue | pages/LeadDetailPage.tsx:142-150 | a catalogue with no archived entry is seeded whole: subtotal = duration × its monthly total |
| LeadSimulation.OfficeTemplateMonthlyTotal | constants.ts:398-415 | the office catalogue's monthly values add up to 7310 |
| LeadSimulation.SeedingCatalogueWorth7310 | pages/LeadDetailPage.tsx:186-190 | an unarchived catalogue worth 7310 a month, seeded for one month, gives subtotal 7310 and contribution 1096.5 |
| LeadSimulation.OfficeTemplateSeeded | pages/LeadDetailPage.tsx:142-150 | the office template seeded for one month gives subtotal 7310 and contribution 1096.5 |
| LeadSimulation.SeedComplexityFactors | pages/LeadDetailPage.tsx:154 | each template factor is kept with only its id rewritten from its name and the stamp |
| LeadSimulation.SeedComplexityKeepsRate | pages/LeadDetailPage.tsx:154 | renaming the factors keeps the summed complexity rate |
| LeadSimulation.ComplexityTemplateRateIsZero | constants.ts:429-443 | the template's summed complexity rate is 0 |
| LeadSimulation.SeededComplexityIsZero | pages/LeadDetailPage.tsx:154 | a freshly seeded simulation adds no complexity value, whatever the direct cost |
| LeadSimulation.DurationFromInput | pages/LeadDetailPage.tsx:451 | the parsed duration is at least 1, and a parsed value of 1 or more is kept |
| LeadSimulation.SyncDurationReprices | pages/LeadDetailPage.tsx:181-183 | monthly items get quantity = duration and cost = base × duration, keeping id and applied flag; other items are unchanged |
| LeadSimulation.SyncDurationLastWins | pages/LeadDetailPage.tsx:181-183 | syncing twice is syncing once with the later duration |
| LeadSimulation.SyncDurationKeepsPricesConsistent | pages/LeadDetailPage.tsx:181-183 | items priced at base × quantity stay so after a sync |
| LeadSimulation.SyncDurationScalesOffice | pages/LeadDetailPage.tsx:181-183 | for monthly items the synced office subtotal is duration × the applied monthly base values |
| LeadSimulation.ToggleOfficeItem | pages/LeadDetailPage.tsx:306-308 | only items with the id flip `isApplied`; every other item is unchanged |
| LeadSimulation.ToggleOfficeItemAt | pages/LeadDetailPage.tsx:306-308 | with unique ids, toggling rewrites exactly the one position |
| LeadSimulation.ToggleOfficeItemShiftsSubtotal | pages/LeadDetailPage.tsx:306-308 | toggling moves the office subtotal by exactly that item's cost, down if it was applied, up if not |
| LeadSimulation.ToggleOfficeItemTwice | pages/LeadDetailPage.tsx:306-308 | toggling the same item twice restores the list |
| LeadSimulation.UpdateOfficeItemFrame | pages/LeadDetailPage.tsx:300-302 | an office edit leaves the other items alone and keeps the edited item's id, applied flag and unit |
| LeadSimulation.UpdateOfficeItemKeepsPricesConsistent | pages/LeadDetailPage.tsx:300-302 | whichever field is edited, the item is repriced at base × quantity |
| LeadSimulation.UpdateVariableItemShiftsSubtotal | pages/LeadDetailPage.tsx:303-305 | with unique ids, an edit moves the variable subtotal by the change in that item's cost |
| LeadSimulation.RenameVariableItemKeepsSubtotal | pages/LeadDetailPage.tsx:303-305 | a rename leaves the variable subtotal unchanged |
| LeadSimulation.ToggleFactorShiftsRate | pages/LeadDetailPage.tsx:312-314 | toggling a factor moves the summed rate by its percentage / 100, down if it was applied, up if not |
| LeadSimulation.SetFactorPercentageShiftsRate | pages/LeadDetailPage.tsx:309-311 | a new percentage moves the summed rate by the change if the factor is applied, and not at all otherwise |
| LeadSimulation.AddCustomVariableItemKeepsSubtotal | pages/LeadDetailPage.tsx:315-321 | one more editable row, and the variable subtotal is unchanged |
| LeadSimulation.RemoveCustomVariableItem | pages/LeadDetailPage.tsx:322-324 | nothing happens unless confirmed; then exactly the items without the id remain |
| LeadSimulation.RemoveCustomVariableItemDropsCost | pages/LeadDetailPage.tsx:322-324 | with unique ids, removing an item drops exactly its position and its cost |
| LeadSimulation.RemoveMissingVariableItemIsNoOp | pages/LeadDetailPage.tsx:322-324 | removing an id no item has leaves the list as it was |
| LeadSimulation.FindSimulation | pages/LeadDetailPage.tsx:136 | a found simulation is stored under the lead's link; none is found when the lead has no link or no stored simulation has that id |
| LeadSimulation.UpsertSimulation | services/databaseService.ts:350-364 | the saved simulation is stored, and every other stored record is an earlier one with a different id |
| LeadSimulation.FindAfterUpsert | services/databaseService.ts:350-364 | after saving, a lookup by the id finds the saved simulation |
| LeadSimulation.LoadWithoutSimulation | pages/LeadDetailPage.tsx:132-158 | a lead with no link loads no simulation and the fresh form |
| LeadSimulation.FreshFormDefaults | pages/LeadDetailPage.tsx:139-158 | the fresh form is 1 month with every office item applied at quantity 1, no variable costs, the default style, the stage template, zero complexity, 25% profit, 6% tax, 0 negotiation and discount |
| LeadSimulation.LoadFound | pages/LeadDetailPage.tsx:136-158 | a lead whose link finds a simulation loads that simulation's form |
| LeadSimulation.SaveSimulationLinksLead | pages/LeadDetailPage.tsx:248-298 | the id is the current simulation's, else the lead's link, else a fresh one; the lead is linked to it and its estimate becomes the proposal; nothing else about the lead changes |
| LeadSimulation.SavedFormRestores | pages/LeadDetailPage.tsx:250-263 | the saved record loads back into the same form, unless a value the loader defaults was 0 or empty |
| LeadSimulation.SaveThenLoadRestoresForm | pages/LeadDetailPage.tsx:286-290 | after upserting the saved simulation, reloading the updated lead gives the saved simulation and the same form |
| LeadSimulation.SavedSimulationIsFound | pages/LeadDetailPage.tsx:286-290 | the lead's new link finds the saved simulation |
| LeadSimulation.ZeroMarginsReloadAsDefaults | pages/LeadDetailPage.tsx:155-157 | a form saved with 0% profit and 0% tax reloads with 25% and 6% |
| LeadSimulation.ZeroMarginsLoadAsDefaults | pages/LeadDetailPage.tsx:155-157 | a stored 0% profit and 0% tax load as 25% and 6% |
| LeadSimulation.ConvertedName | pages/LeadDetailPage.tsx:361 | the project name is the first 50 characters of a non-empty description, else "Projeto " + client name |
| LeadSimulation.ConvertLeadToProjectSpec | pages/LeadDetailPage.tsx:357-378 | the project is planned, unpaid and without phases or payments, priced at the proposal (else the estimate, else 0), due 30 × (duration \|\| 1) days after today, for the client with its name and address ("A definir" when empty), in the simulation's style with its stages, named by the first 50 characters of a non-empty description or "Projeto " + client name; the lead only becomes won |
| LeadSimulation.PricedValueReachesLeadAndProject | pages/LeadDetailPage.tsx:289-358 | after pricing the form, the lead's saved estimate and the converted project's value are both the waterfall's final value, direct × (1+C) × (1+p) × (1+n) × (1−d) × (1+t) |
| StagePricing.AddStage | components/projects/DetailedStagesPricingForm.tsx:41-50 | read-only saves nothing; otherwise exactly one empty, expanded stage "Nova Etapa n+1" is appended, the others are kept and no cost changes |
| StagePricing.ToggleStageCollapse | components/projects/DetailedStagesPricingForm.tsx:52-59 | only `isCollapsed` of the stages with the id flips; ids, names and items stay (no read-only check) |
| StagePricing.ToggleStageCollapseKeepsCosts | components/projects/DetailedStagesPricingForm.tsx:52-59 | collapsing changes no stage cost, and toggling twice restores the stages |
| StagePricing.RenameStage | components/projects/DetailedStagesPricingForm.tsx:61-69 | read-only saves nothing; otherwise only the stages with the id take the new name |
| StagePricing.RemoveStage | components/projects/DetailedStagesPricingForm.tsx:71-74 | read-only or declined saves nothing; otherwise exactly the stages without the id remain |
| StagePricing.WithoutStageMembers | components/projects/DetailedStagesPricingForm.tsx:73 | the stage filter keeps exactly the stages without the id |
| StagePricing.RemoveMissingStageIsNoOp | components/projects/DetailedStagesPricingForm.tsx:71-74 | removing an id no stage has leaves the stages as they were |
| StagePricing.RemoveStageDropsItsCost | components/projects/DetailedStagesPricingForm.tsx:71-74 | with unique ids, removing a stage keeps the others in order and drops exactly its cost |
| StagePricing.AddItem | components/projects/DetailedStagesPricingForm.tsx:76-88 | read-only saves nothing; otherwise only the matching stages gain one 0-hour item with no responsible at the end |
| StagePricing.AddItemKeepsCosts | components/projects/DetailedStagesPricingForm.tsx:76-88 | adding a 0-hour item changes no cost |
| StagePricing.IndexOfItem | components/projects/DetailedStagesPricingForm.tsx:97 | the position of the first item with the id, or none if no item has it |
| StagePricing.DuplicateItem | components/projects/DetailedStagesPricingForm.tsx:90-113 | read-only saves nothing; otherwise other stages are unchanged and the matching ones get the duplicated item list |
| StagePricing.DuplicateInItemsInsertsCopy | components/projects/DetailedStagesPricingForm.tsx:95-107 | a copy with the new id and the same name, responsible and hours goes right after the first item with the id, and everything else stays in place; without such an item nothing changes |
| StagePricing.DuplicateInItemsAddsItsCost | components/projects/DetailedStagesPricingForm.tsx:95-107 | duplicating adds the duplicated item's cost once |
| StagePricing.RemoveItem | components/projects/DetailedStagesPricingForm.tsx:115-122 | read-only or declined saves nothing; otherwise only the matching stages lose their items with the id |
| StagePricing.WithoutItemMembers | components/projects/DetailedStagesPricingForm.tsx:119 | the item filter keeps exactly the items without the id |
| StagePricing.RemoveMissingItemIsNoOp | components/projects/DetailedStagesPricingForm.tsx:115-122 | removing an item id the stage does not hold leaves every stage as it was |
| StagePricing.UpdateItem | components/projects/DetailedStagesPricingForm.tsx:124-125 | read-only saves nothing, and otherwise the handler always saves |
| StagePricing.UpdateItemChangesOneField | components/projects/DetailedStagesPricingForm.tsx:124-139 | only the edited field of the matching items in the matching stages changes; every other stage, item and field stays |
| StagePricing.RenameKeepsItemsCost | components/projects/DetailedStagesPricingForm.tsx:131-133 | renaming items changes no item cost |
| StagePricing.RenameItemKeepsCosts | components/projects/DetailedStagesPricingForm.tsx:124-139 | renaming an item changes no stage cost |
| StagePricing.ItemsCostConcat | components/projects/DetailedStagesPricingForm.tsx:168-172 | the stage cost fold is additive over joined item lists |
| StagePricing.StagesCostReplace | components/projects/DetailedStagesPricingForm.tsx:168-172 | replacing one stage changes the total by exactly the change in that stage's cost |
| Collections.MapWhereId | pages/ProjectDetailPage.tsx:461 | the same length, with the elements that have the id transformed and the others unchanged |
| Collections.MapWhereIdAt | pages/LeadDetailPage.tsx:306-308 | with unique ids, mapping over the id of one position rewrites that position alone |
| ProjectDetail.ReplaceByIdSpec | pages/ProjectDetailPage.tsx:461 | replacing by id keeps the length and every element with another id (with multiplicity), adds the replacement if the id was present, and adds nothing else |
| ProjectDetail.WithoutIdSpec | pages/ProjectDetailPage.tsx:469 | deleting by id drops every element with the id and keeps every other element with its multiplicity |
| ProjectDetail.SavePaymentSorted | pages/ProjectDetailPage.tsx:458-466 | the payments after a save are in ascending due-date order |
| ProjectDetail.SaveEditedPaymentSpec | pages/ProjectDetailPage.tsx:460-461 | an edit keeps the count and every payment with another id; the saved payment is listed if its id was, and nothing else is added |
| ProjectDetail.SaveNewPaymentSpec | pages/ProjectDetailPage.tsx:462 | a new payment adds exactly that payment |
| ProjectDetail.DeletePaymentSpec | pages/ProjectDetailPage.tsx:467-472 | declined does nothing; confirmed removes exactly the payments with the id, and an absent id changes nothing |
| ProjectDetail.SavePhaseSorted | pages/ProjectDetailPage.tsx:478-486 | the phases after a save are in ascending `order` |
| ProjectDetail.SaveNewPhaseSpec | pages/ProjectDetailPage.tsx:482 | a new phase is added with `order` = previous count + 1 |
| ProjectDetail.SaveEditedPhaseSpec | pages/ProjectDetailPage.tsx:478-484 | an edit keeps the count and every phase with another id, lists the saved phase if its id was present, and adds nothing else |
| ProjectDetail.DeletePhaseSpec | pages/ProjectDetailPage.tsx:487-492 | declined does nothing; confirmed removes exactly the phases with the id, sub-phases and all, and keeps the others whole |
| ProjectDetail.TogglePhaseSpec | pages/ProjectDetailPage.tsx:493-500 | only `completed` of the phases with the id flips; sub-phases and other fields stay |
| ProjectDetail.TogglePhaseTwice | pages/ProjectDetailPage.tsx:493-500 | toggling twice restores the phases |
| ProjectDetail.SaveSubPhaseSpec | pages/ProjectDetailPage.tsx:507-519 | only the parent's sub-phases change; they become the saved list, sorted by `order`; a new sub-phase is added with count + 1, and an edit keeps the count and every other sub-phase, lists the saved one if its id was present, and adds nothing else |
| ProjectDetail.SavedEditedSubPhasesSpec | pages/ProjectDetailPage.tsx:508-514 | the edited sub-phase list keeps the count and every sub-phase with another id, lists the saved one if its id was present, and adds nothing else |
| ProjectDetail.DeleteSubPhaseSpec | pages/ProjectDetailPage.tsx:520-530 | declined does nothing; confirmed changes only the parent's sub-phases, dropping exactly those with the id |
| ProjectDetail.ToggleSubPhaseSpec | pages/ProjectDetailPage.tsx:531-544 | only the parent's sub-phases change, and there only `completed` of the one with the id flips |
| ProjectDetail.ToggleSubPhaseTwice | pages/ProjectDetailPage.tsx:531-544 | toggling a sub-phase twice restores the phases |
| ProjectDetail.ProgressIsRoundedShare | pages/ProjectDetailPage.tsx:548 | with a positive total, the progress is within half a point of paid / total × 100 |
| ProjectDetail.ProgressMonotone | pages/ProjectDetailPage.tsx:548 | paying more never lowers the progress |
| ProjectDetail.ProgressBounds | pages/ProjectDetailPage.tsx:548 | between nothing paid and everything paid, progress is 0..100, 100 when nothing remains, and the remaining value is between 0 and the total |
| ProjectDetail.IsoDateSplits | pages/ProjectDetailPage.tsx:24 | an ISO date splits at its dashes into year, month and day |
| ProjectDetail.FormatDateOfIsoDate | pages/ProjectDetailPage.tsx:18-28 | an ISO date is shown as DD/MM/YYYY, in 10 characters, and reads back as the same ISO date |
| ProjectDetail.FormatDateForInputSpec | pages/ProjectDetailPage.tsx:30-38 | an ISO date is returned unchanged, any result is empty or an ISO date, and formatting a result again changes nothing |
| Crm.FilterLeadsIsOneFilter | pages/CrmPage.tsx:60-74 | the pipeline keeps exactly the open leads (not archived, not won) that match the set search term, status and source |
| Crm.LeadOrderIsTotalPreorder | pages/CrmPage.tsx:76-91 | every sort option is a consistent comparator (total and transitive) |
| Crm.ListLeadsSpec | pages/CrmPage.tsx:76 | the board lists a permutation of the filtered leads, and exactly the leads that pass the filters |
| Crm.ListLeadsSorted | pages/CrmPage.tsx:76-91 | the board is ordered by the chosen option |
| Crm.ByEstimateIsNonIncreasing | pages/CrmPage.tsx:86-87 | by estimate, values (missing as 0) never increase down the list |
| Crm.ByNextActionPutsDatedFirst | pages/CrmPage.tsx:82-85 | by next action, dated leads come before undated ones and the dated ones ascend |
| Crm.FirstMatchingClient | pages/CrmPage.tsx:132-135 | the position of the first client matching by name, or by both e-mails, ignoring case; none means no client matches |
| Crm.FindExistingClient | pages/CrmPage.tsx:132-135 | a found client is a matching client from the list, and none is found exactly when no client matches |
| Crm.StartConversion | pages/CrmPage.tsx:130-146 | the lead is converted with a found client exactly when one matches and the user accepts it; otherwise a client must be entered |
| Crm.ConvertLeadToProjectSpec | pages/CrmPage.tsx:148-171 | the project is planned and unpaid, priced at the estimate (0 when missing), due 30 days after today, for the client, in the default style with the template's stages; the lead only becomes won |
| ProjectsPage.FindClient | pages/ProjectsPage.tsx:77 | the first client with the id, or none exactly when no client has it |
| ProjectsPage.FilterProjectsIsOneFilter | pages/ProjectsPage.tsx:73-85 | the pipeline keeps exactly the projects that match the set search term (name, stored client name or linked client's name), status and type |
| ProjectsPage.ProjectOrderIsTotalPreorder | pages/ProjectsPage.tsx:87-104 | every sort option is a consistent comparator |
| ProjectsPage.ListProjectsSpec | pages/ProjectsPage.tsx:87 | the list is a permutation of the filtered projects, so a sub-multiset of the input, holding exactly the projects that pass |
| ProjectsPage.ListProjectsSorted | pages/ProjectsPage.tsx:87-104 | the list is ordered by the chosen option |
| ProjectsPage.ByDueDateIsAscending | pages/ProjectsPage.tsx:89-90 | by due date, due dates never decrease down the list |
| ProjectsPage.ByNameIsAscending | pages/ProjectsPage.tsx:93-94 | by name, names ascend in character-code order |
| ProjectsPage.StartDateAscIsNewestFirst | pages/ProjectsPage.tsx:97-98 | the option named "start date ascending" lists the most recent start first |
| ProjectsPage.StartDateDescIsOldestFirst | pages/ProjectsPage.tsx:99-100 | the option named "start date descending" lists the oldest start first |
| ProjectsPage.EditKeepsIdentity | pages/ProjectsPage.tsx:133-162 | an edit carries every form field and the looked-up client name, and keeps id, creation time, stages, phases and payments; a set style is kept and an empty one dropped |
| ProjectsPage.NewProjectIsBlank | pages/ProjectsPage.tsx:163-169 | a new project carries the form, gets the fresh id, is created now and has no stages, phases, payments or style |
| ProjectsPage.EditIsIdempotent | pages/ProjectsPage.tsx:160-162 | saving the same form again over the edited project changes only `updatedAt` |
| Dashboard.Classify | pages/DashboardPage.tsx:45-64 | overdue exactly when due < today, with days = today − due > 0; upcoming exactly when 0 ≤ due − today ≤ threshold; otherwise not due; when not overdue, days = due − today ≥ 0 |
| Dashboard.ClassifyIsShiftInvariant | pages/DashboardPage.tsx:58-63 | moving both days by the same amount changes nothing |
| Dashboard.ClassifyThresholdMonotone | pages/DashboardPage.tsx:62 | a longer threshold keeps upcoming deadlines upcoming and never changes overdue or the day count |
| Dashboard.ActiveCountSplits | pages/DashboardPage.tsx:68 | active and other projects split the list, and the count adds up over joined lists |
| Dashboard.PendingTotalSpec | pages/DashboardPage.tsx:84-85 | the pending total counts the value of every pending or overdue payment and nothing else, and with non-negative values it is at most the sum of all values |
| Dashboard.DeadlineNotice | pages/DashboardPage.tsx:93-97 | a notice exactly when the deadline is overdue (danger) or upcoming (warning), carrying the item's id and the day count |
| Dashboard.Collect | pages/DashboardPage.tsx:90-130 | at most one notice per item |
| Dashboard.CollectMembers | pages/DashboardPage.tsx:90-130 | every collected notice is the notice of some item |
| Dashboard.PushNotices | pages/DashboardPage.tsx:90-99 | one `forEach` loop appends exactly the collected notices of its items |
| Dashboard.CollectNotices | pages/DashboardPage.tsx:87-130 | the four loops build projects', tasks', inspections' and overdue payments' notices, in that order |
| Dashboard.ProjectNoticesAreForOpenProjects | pages/DashboardPage.tsx:90-99 | a project notice comes from a project neither completed nor canceled, classified against 7 days |
| Dashboard.TaskNoticesUseThreeDays | pages/DashboardPage.tsx:102-112 | a task notice comes from an unfinished task with a due date, and a warning is at most 3 days away |
| Dashboard.PartitionDangerFirst | pages/DashboardPage.tsx:134-136 | in place, the notices are permuted so that no danger notice follows a non-danger one |
| Dashboard.DangerFirstPrefixCount | pages/DashboardPage.tsx:179 | the first m notices of a danger-first list hold min(m, all danger notices) danger notices |
| Dashboard.FirstTenOfArrangement | pages/DashboardPage.tsx:179 | the first ten of a danger-first arrangement show at most ten notices, all taken from the collected ones, danger first, and as many danger notices as fit |
| Dashboard.ImportantNotices | pages/DashboardPage.tsx:87-179 | the shown notices are the first ten of a danger-first arrangement of all collected notices |
| AppointmentForm.ParseAttendees | components/calendar/AppointmentFormModal.tsx:101 | every parsed attendee is trimmed, non-empty and comma-free |
| AppointmentForm.TidyIsTidy | components/calendar/AppointmentFormModal.tsx:101 | trimming and dropping empties leaves only trimmed, non-empty names |
| AppointmentForm.TidyCommaFree | components/calendar/AppointmentFormModal.tsx:101 | tidying pieces without commas gives names without commas |
| AppointmentForm.AttendeesRoundTrip | components/calendar/AppointmentFormModal.tsx:58 | the text shown for a list of trimmed, non-empty, comma-free names parses back to that list |
| AppointmentForm.ParseAttendeesIsStable | components/calendar/AppointmentFormModal.tsx:101 | re-parsing the text of a parsed list gives the same list |
| AppointmentForm.ParseAttendeesStripsAllWhitespace | components/calendar/AppointmentFormModal.tsx:101 | a vertical tab, form feed and no-break space around names are trimmed away like spaces |
| AppointmentForm.AllDaySpansTheDay | components/calendar/AppointmentFormModal.tsx:87-91 | an all-day event starts at `<date>T00:00:00` and ends at `<date>T23:59:59` of the start's date, and the end is after the start |
| AppointmentForm.SubmitAllDay | components/calendar/AppointmentFormModal.tsx:84-106 | an all-day submit saves the whole day of the start date |
| AppointmentForm.SubmitSpec | components/calendar/AppointmentFormModal.tsx:94-106 | `projectId` is set only for project meetings, `relatedId` only for task deadlines; an edit keeps its id, a new event gets the fresh one; attendees are parsed from the text |
| AppointmentForm.EditRoundTrip | components/calendar/AppointmentFormModal.tsx:51-106 | an appointment of the shape the form produces is saved back unchanged, except for its start and end |
| AppointmentForm.TaskOptionsSpec | components/calendar/AppointmentFormModal.tsx:112 | the choices are exactly the tasks with no project or in the selected one; with none selected, only tasks without a project |
| Constants.ComplexityTemplateInert | constants.ts:429-443 | every template factor is at 0% and not applied |
| Constants.TeamMemberConfigOf | constants.ts:419-424 | a settings entry keeps the member's id and name; its role falls back to "Membro da Equipe" and its rate to 0 |
| Constants.TeamMemberConfigsOf | constants.ts:419-424 | one settings entry per member, in member order |
| Constants.ConfigsKeepRates | constants.ts:419-424 | members with a role and a non-zero rate keep their own role and rate in the settings |
| Constants.TeamMemberConfigsTemplateKeepsRates | constants.ts:75-83 | every mock team member keeps their id, name, role and rate in the settings template |
| Constants.StagesTemplateTagged | constants.ts:445-519 | the six template stages and their items carry ids tagged with their stage and position |
| Constants.TaggedStagesDistinct | constants.ts:521-522 | tagged stages have distinct stage ids and distinct item ids across all stages |
| Constants.TaggedStagesStaffed | constants.ts:523 | every item of tagged stages names a responsible who is in the mock team |
| Constants.TeamHasTemplateResponsibles | constants.ts:75-83 | the office principal and the outsourced team are members of the mock team |
| Constants.StagesTemplateIdsUnique | constants.ts:445-519 | the template's stage ids are distinct, and so are its item ids across all stages |
| Constants.StagesTemplateResponsiblesAreTeamMembers | constants.ts:448-516 | every template item's responsible is a member of the mock team |
| Constants.StagesTemplateOnlyFirstExpanded | constants.ts:445-519 | six stages, of which only the first starts expanded |
| Sorting.SortBySorted | pages/CrmPage.tsx:76 | with a consistent comparator, the sorted copy is ordered |
| Sorting.SortByIsPermutation | pages/CrmPage.tsx:76 | the sorted copy is a permutation of the input |
| Text.LexLeqTotal | pages/ProjectsPage.tsx:94 | any two names compare one way or the other |
| Text.LexLeqTransitive | pages/ProjectsPage.tsx:94 | the name order is transitive |
| Text.LexLeqAntisymmetric | pages/ProjectsPage.tsx:94 | names that compare both ways are equal |
| Text.Prefix | pages/CrmPage.tsx:155 | `substring(0, n)`: a prefix of at most n characters, exactly n when the text is long enough, and the whole text otherwise |
| Text.Split | components/calendar/AppointmentFormModal.tsx:101 | at least one piece, and no piece holds the separator |
| Text.TrimIsTrimmed | components/calendar/AppointmentFormModal.tsx:101 | a trimmed text has no leading or trailing whitespace |

## Left out

- I/O: the database service, the server, local storage, fetching, `alert` and navigation. A store save is modelled only as the upsert by id it performs (`UpsertSimulation`).
- The lead page's fallback that fetches a lead missing from the store (pages/LeadDetailPage.tsx:160-178). It is I/O.
- React scheduling: effects and `useMemo` are modelled as the functions they compute. Two things are not modelled: when they run, and the stale state a handler may close over.
- Clocks: `Date.now()`, `new Date` and ISO conversion. Dates are day numbers and "today" and "now" are parameters.
  - Every id built from `Date.now()` is a single `stamp` parameter. Two ids made in the same millisecond collide in the source; the model does not show this.
  - `isDateInThisWeek` and the tasks-this-week count depend on the current week and are not modelled.
  - The ISO conversion of appointment times and `formatDateTimeForInput` are not modelled. The appointment keeps the form's text.
  - A date string that is not `YYYY-MM-DD` goes through `Date` in `formatDate`, `formatDateForInput` and `isDateUpcomingOrOverdue`. That path is a parameter or left unspecified.
- Floating point: `real` is exact. `NaN`, the `|| 0` guards that only matter for `NaN` (pages/LeadDetailPage.tsx:227-242), `parseFloat`, `parseInt`, `toFixed` and locale formatting are not modelled.
- Strings: case-insensitive search lower-cases only the ASCII letters, where `toLowerCase` maps every Unicode letter. `localeCompare` is ordered by character codes (`Text.LexLeq`). Trimming and `\s` use ECMAScript's full whitespace set.
- Text.Prefix: counts Unicode characters, where `substring(0, 50)` (pages/LeadDetailPage.tsx:361, pages/CrmPage.tsx:155) counts UTF-16 code units. A description with a character outside the Basic Multilingual Plane, such as an emoji, before position 50 gets a longer name in the model than in the source, and the source may cut such a character in half.
- Sorting.SortBySorted: states order and permutation only. The insertion sort is stable like `Array.prototype.sort`, but stability is not stated.
- The in-place sorts at pages/ProjectDetailPage.tsx:463, 483 and 514 sort arrays freshly built by `map` or spread, so they are modelled as sorted copies. The render-time sorts of the project's own arrays (107, 615, 663) are display only and left out.
- Dashboard.PartitionDangerFirst: states only the danger-first order and the permutation. It does not keep the source's order among warnings or by day count, and it is not stable. The source's comparator never returns 0, so it is not a consistent order beyond danger first.
- Dashboard.ImportantNotices: weaker than the source's full notice order, for the same reason. Notice messages, icons and link paths are left out.
- The dashboard's project guard on a due date is always true in the model, because a project's due date is a required field.
- Crm.ByNextActionPutsDatedFirst: two undated leads are treated as a tie. The source's comparator returns 1 for them in both orders.
- LeadSimulation.ZeroMarginsReloadAsDefaults: a saved 0% profit or tax comes back as 25% or 6%. This is stated as the source does it, not corrected.
- `handleSimOfficeItemChange` (pages/LeadDetailPage.tsx:300-302) is modelled (`UpdateOfficeItem`) even though no input in the page calls it. The model admits three edits: the name, the base value and an integer quantity. The source writes `[field]: value` for any field of the item, and stores the raw value while it prices the quantity with `parseInt` and the base value with `parseFloat`. The model stores the already-parsed number, so text that `parseInt` or `parseFloat` would cut short or turn into `NaN` is not modelled.
- LeadSimulation.UpsertSimulation: does not state that every earlier record with another id is kept, only that nothing else is added.
- `FindExistingClient` and `StartConversion` also model the lead page's conversion start (pages/LeadDetailPage.tsx:345-355), which is identical.
- `handleDeleteProject`, `handleEditProject`, `handleSaveNewClient` and the client-modal paths only call the database or open dialogs.
- Project records: the `files`, `tasks`, `contracts` and `appointments` lists are not part of the model, because no modelled operation reads them.
- ProjectDetail.DeletePaymentSpec: states which payments remain and how often, not their relative order. The filter keeps that order.
- ProjectDetail.DeletePhaseSpec: states which phases remain and how often, not their relative order. The filter keeps that order.
- Form dialogs other than the appointment form, the settings page, authentication, routing, layout and the card views are left out. They only assemble records or display them.
