# Filament inventory and cabinet estimator, modelled in Dafny

The application keeps a stock list of 3D-printing filament spools. Each spool has a name, a brand, a material, a total weight and a remaining weight in grams, a price per kilogram and two dates. You can:
- add or edit a spool (it is saved under a display name no other spool shows);
- delete a spool;
- record a print, which deducts grams from a spool after a dialog checks the amount;
- search the list;
- see the total stock and the spools running low;
- use a built-in estimator for a printed storage cabinet. Given the cabinet's dimensions, print settings, materials, prices and electricity rate, it computes the cabinet's and its drawers' weight, the print time, the energy and the cost.

This project models that logic and proves what it promises:

- `js_number.dfy`, module `JsNumber`: the JavaScript number built-ins over exact reals.
  - `parseFloat`, and the `parseFloat(s) || 0` idiom.
  - The calculator's edit gate `/^\d*\.?\d*$/`.
  - `Math.round`, `toFixed(1)` and the decimal text of small numbers.
- `js_string.dfy`, module `JsString`: `includes`, ASCII `toLowerCase` and `trim`.
- `types.dfy`, module `Types`: the spool record and the material enumeration.
- `cabinet_calculator.dfy`, module `CabinetCalculator`: the estimator.
  - The material presets and the power rule.
  - The shell-and-infill panel model.
  - The derived drawer fields, the weight breakdown and the production estimates.
  - `formatTime`.
  - The component state as the class `Calculator`. Its methods are the edit handler, the material handler, the drawer switch and the three effects.
- `progress_bar.dfy`, module `ProgressBar`: the clamped stock percentage, the low-stock flag and the bar colour.
- `deduct_modal.dfy`, module `DeductModal`: the amount check of the deduction dialog, and its `amount`/`error` state as the class `Modal`.
- `app.dfy`, module `App`: the list operations of the main screen.
  - The unique-name loop, as a method with a `while` loop.
  - Insert or replace by id, delete and deduct.
  - The search filter, the stock total and the low-stock list.
  - The list state as the class `Inventory`.
- `storage_service.dfy`, module `StorageService`: the converters between a spool and a table row. The date conversions are parameters.

JavaScript numbers are modelled as exact `real`s. `parseFloat` returns `None` for NaN.

## Model

| member | source | states |
|---|---|---|
| JsNumber.ParseFloat | components/CabinetCalculator.tsx:32 | `parseFloat`: the longest numeric prefix, NaN when there is none; its readings are stated by ParseWhole, ParseDecimal and ParseNumericEdit |
| JsNumber.Parse | components/CabinetCalculator.tsx:32 | `parseFloat(v) \|\| 0`: NaN reads as 0; by ParseNumericEdit every gated text reads as a number >= 0 |
| JsNumber.IsNumericEdit | components/CabinetCalculator.tsx:184 | the gate `/^\d*\.?\d*$/`; NumericEditIff characterises it as digits and dots with at most one dot |
| JsNumber.ToFixed1 | components/CabinetCalculator.tsx:87 | `toFixed(1)` of a non-negative value; ParseToFixed1 and Round1Close state what it reads back as |
| JsNumber.NumberToString | components/CabinetCalculator.tsx:195 | `toString()` of a non-negative value with at most two decimals; ParseNumberToString states that it reads back exactly |
| JsNumber.NumericEditIff | components/CabinetCalculator.tsx:184 | the edit gate accepts exactly the texts made of digits and dots with at most one dot |
| JsNumber.EmptyPassesGate | components/CabinetCalculator.tsx:184 | the empty text passes the gate, so a field can be cleared |
| JsNumber.ParseNumericEdit | components/CabinetCalculator.tsx:32 | on any text the gate accepts, `parse` gives a number >= 0; parseFloat gives NaN only for "" and "." |
| JsNumber.ScanLiteral | components/CabinetCalculator.tsx:32 | the literal parseFloat reads has digit-only whole and fraction parts |
| JsNumber.ParseExamples | components/CabinetCalculator.tsx:32 | `parse("")` and `parse(".")` are 0 and `parse("1.")` is 1 |
| JsNumber.ParseWhole | components/CabinetCalculator.tsx:32 | a digit string parses to the integer it denotes |
| JsNumber.ParseDecimal | components/CabinetCalculator.tsx:32 | "whole.fraction" parses to the whole part plus the fraction |
| JsNumber.MathRound | components/CabinetCalculator.tsx:146-150 | `Math.round(x)` is the integer n with x - 0.5 < n <= x + 0.5 |
| JsNumber.NatToString | components/CabinetCalculator.tsx:196 | the decimal text of n is a non-empty digit string that denotes n |
| JsNumber.NatToStringInjective | App.tsx:105 | different counters are rendered as different texts |
| JsNumber.ParseNatToString | components/CabinetCalculator.tsx:196 | the text of a whole number parses back to it |
| JsNumber.ParseToFixed1 | components/CabinetCalculator.tsx:87 | re-parsing `toFixed(1)` text gives the value rounded to 0.1 |
| JsNumber.Round1Close | components/CabinetCalculator.tsx:87 | rounding to 0.1 moves a value by at most 0.05 |
| JsNumber.ParseNumberToString | components/CabinetCalculator.tsx:195 | a density's `toString()` text parses back to the density |
| JsString.IncludesIff | components/CabinetCalculator.tsx:22-25 | `includes` holds exactly when the pattern occurs at some position |
| JsString.IncludesEmpty | App.tsx:182 | every string includes the empty string |
| JsString.Lower | App.tsx:182 | `toLowerCase` keeps the length and lower-cases each ASCII letter, nothing else |
| JsString.LowerIdempotent | App.tsx:182 | lower-casing twice gives what lower-casing once gives |
| JsString.TrimFacts | App.tsx:100 | the trimmed text neither starts nor ends with white space, and it is empty exactly when the text is all white space |
| CabinetCalculator.PresetDensity | components/CabinetCalculator.tsx:10-18 | a preset name gets its table density, any other name 1.24; the density is positive with two decimals |
| CabinetCalculator.PowerForMaterial | components/CabinetCalculator.tsx:21-27 | first match wins: a PLA name gets 150 W; 170 W exactly for PETG without PLA; 280 W exactly for ABS or ASA without PLA or PETG; otherwise 150 W |
| CabinetCalculator.PresetPowers | components/CabinetCalculator.tsx:21-27 | PLA Basic/Matte gets 150 W, PETG-CF 170 W, ABS 280 W, TPU 150 W |
| CabinetCalculator.DensityFactor | components/CabinetCalculator.tsx:94-101 | the factor is 1 when the shell fills the thickness, whatever the infill; it is >= 0, and lies in [infill, 1] for an infill in [0, 1] |
| CabinetCalculator.FactorBlend | components/CabinetCalculator.tsx:97-100 | past the shell, the factor is solidRatio + (1 - solidRatio) * infill with solidRatio in [0, 1) |
| CabinetCalculator.SplitBounds | components/CabinetCalculator.tsx:98-100 | the solid and infill shares blend to a value in [infill, 1] |
| CabinetCalculator.DensityFactorMonotoneInInfill | components/CabinetCalculator.tsx:94-101 | a higher infill rate never lowers the factor |
| CabinetCalculator.PanelWeight | components/CabinetCalculator.tsx:91-102 | a panel weighs 0 when its width, depth or thickness is <= 0, and never less than 0 for non-negative settings |
| CabinetCalculator.PanelWeightMonotoneInDensity | components/CabinetCalculator.tsx:91-102 | a denser material never makes a panel lighter |
| CabinetCalculator.PanelWeightMonotoneInInfill | components/CabinetCalculator.tsx:91-102 | a higher infill rate never makes a panel lighter |
| CabinetCalculator.PanelsWeight | components/CabinetCalculator.tsx:126 | the `reduce` sum over panels is >= 0 for non-negative settings |
| CabinetCalculator.PanelsWeightAppend | components/CabinetCalculator.tsx:126 | the sum over a concatenation is the sum of the two sums |
| CabinetCalculator.PanelsWeightMonotoneInDensity | components/CabinetCalculator.tsx:126 | a denser material never makes the panels lighter |
| CabinetCalculator.CabinetPanelsWeight | components/CabinetCalculator.tsx:121-126 | the raw cabinet weight is the back (W x H x T) plus the sides (D x H x 2T) plus the shelves (W x D x LT) |
| CabinetCalculator.Set | components/CabinetCalculator.tsx:186 | the edited key gets the new text and every other field keeps its text |
| CabinetCalculator.InitialParamsGated | components/CabinetCalculator.tsx:34-54 | every initial numeric field passes the edit gate |
| CabinetCalculator.SetKeepsGate | components/CabinetCalculator.tsx:184-186 | an accepted edit keeps every numeric field gated |
| CabinetCalculator.BuildReadsOnlyWeightFields | components/CabinetCalculator.tsx:105-119 | prices, powers, efficiency, electricity rate and material names never reach the weights |
| CabinetCalculator.GatedFieldReadsNonNegative | components/CabinetCalculator.tsx:105-119 | a gated numeric field is read as a number >= 0 |
| CabinetCalculator.GatedFieldsReadNonNegative | components/CabinetCalculator.tsx:105-119 | with gated fields every number the effect reads is >= 0 |
| CabinetCalculator.ClearHeight | components/CabinetCalculator.tsx:86 | the clear height per drawer, (H - (L + 1) T) / L; HeightTextReadsBack and DerivedDrawerHeightReadsBack state what is stored from it |
| CabinetCalculator.HeightText | components/CabinetCalculator.tsx:87 | the stored height text, `toFixed(1)` of a positive clear height and "0" otherwise; HeightTextReadsBack states its reading |
| CabinetCalculator.DerivedDrawerHeight | components/CabinetCalculator.tsx:81-89 | the height effect's result, none when shelves <= 0; DerivedDrawerHeightReadsBack, SetKeepsShape and InitialDrawerHeight state its properties |
| CabinetCalculator.HeightTextReadsBack | components/CabinetCalculator.tsx:87 | the stored drawer height reads back as the clear height rounded to 0.1 mm, or 0 when that is <= 0; never negative, at most 0.05 mm off |
| CabinetCalculator.DerivedDrawerHeightReadsBack | components/CabinetCalculator.tsx:81-89 | with positive shelves the derived height text reads back as a number >= 0 |
| CabinetCalculator.SetKeepsShape | components/CabinetCalculator.tsx:77-89 | an edit of another key keeps each shape field; an edit of anything but height, shelves or wall thickness keeps the derived height |
| CabinetCalculator.InitialShapeReads | components/CabinetCalculator.tsx:37-39 | the initial height, shelves and wall thickness read as 150, 5 and 2.9 |
| CabinetCalculator.InitialDrawerHeight | components/CabinetCalculator.tsx:81-89 | the initial cabinet gets the drawer height "26.5" |
| CabinetCalculator.HeightTextExample | components/CabinetCalculator.tsx:87 | a clear height of 26.52 mm is stored as "26.5" |
| CabinetCalculator.DrawerWidth | components/CabinetCalculator.tsx:134 | the drawer width W - 2T - 2, floored at 0; DrawersWeight states that the drawers weigh 0 unless it is positive |
| CabinetCalculator.DrawerDepth | components/CabinetCalculator.tsx:135 | the drawer depth D - T - 1, floored at 0; DrawersWeight states that the drawers weigh 0 unless it is positive |
| CabinetCalculator.SingleDrawerWeight | components/CabinetCalculator.tsx:137-140 | one drawer as three panels; WeightsNonNegative states that it never makes the drawers' weight negative |
| CabinetCalculator.CabinetWeight | components/CabinetCalculator.tsx:126-127 | the compensated cabinet weight; CabinetPanelsWeight gives the panels' closed form and CabinetWeightMonotoneInDensity its monotonicity |
| CabinetCalculator.DrawersWeight | components/CabinetCalculator.tsx:129-143 | the drawers weigh 0 unless drawers are on and the drawer width, depth and height are all positive |
| CabinetCalculator.ComputeWeights | components/CabinetCalculator.tsx:145 | the total weight is the cabinet weight plus the drawers' weight |
| CabinetCalculator.Rounded | components/CabinetCalculator.tsx:146-150 | each shown figure is within half a gram of the exact weight |
| CabinetCalculator.WeightsNonNegative | components/CabinetCalculator.tsx:127-145 | with non-negative inputs no weight is negative |
| CabinetCalculator.CabinetWeightMonotoneInDensity | components/CabinetCalculator.tsx:126-127 | a denser cabinet material never lowers the cabinet weight |
| CabinetCalculator.ComputeEstimates | components/CabinetCalculator.tsx:152-180 | the estimates from the unrounded weights; EstimatesOfBreakdown gives them in closed form and EstimatesNonNegative their sign |
| CabinetCalculator.EstimatesOfBreakdown | components/CabinetCalculator.tsx:152-180 | all estimates are 0 unless efficiency > 0 and total weight > 0; then hours = total / efficiency, energy and material cost are the per-assembly sums, total cost = electricity + material exactly |
| CabinetCalculator.EstimatesNonNegative | components/CabinetCalculator.tsx:157-176 | with non-negative weights and rates no estimate is negative |
| CabinetCalculator.TimeParts | components/CabinetCalculator.tsx:200-203 | the whole hours are the floor of the duration and the minutes are between 0 and 60 inclusive |
| CabinetCalculator.FormatTime | components/CabinetCalculator.tsx:200-204 | `formatTime` as written; FormatTimeShowsSixtyMinutes exhibits its "60m" output |
| CabinetCalculator.FormatTimeShowsSixtyMinutes | components/CabinetCalculator.tsx:200-204 | as written, 0.999 h is shown as "60m" |
| CabinetCalculator.CorrectedTimeParts | components/CabinetCalculator.tsx:200-204 | the corrected split has minutes below 60, and hours * 60 + minutes is the duration rounded to whole minutes |
| CabinetCalculator.FormatTimeCorrected | components/CabinetCalculator.tsx:200-204 | `formatTime` with the minutes carried; CorrectedTimeParts bounds its minutes below 60 and FormatTimeCorrectedCarries shows "1h 0m" |
| CabinetCalculator.FormatTimeCorrectedCarries | components/CabinetCalculator.tsx:200-204 | corrected, 0.999 h is shown as "1h 0m" |
| CabinetCalculator.WithMaterial | components/CabinetCalculator.tsx:189-198 | the fields after a material change; WithMaterialFields, WithMaterialKeepsShape and WithMaterialKeepsGate state its effect |
| CabinetCalculator.WithMaterialFields | components/CabinetCalculator.tsx:189-198 | a material change sets the assembly's name; its density and power read back as the preset density (1.24 if unknown) and the first-match power; no other field changes |
| CabinetCalculator.WithMaterialKeepsShape | components/CabinetCalculator.tsx:189-198 | a material change keeps the shape fields and the derived drawer height |
| CabinetCalculator.WithMaterialKeepsGate | components/CabinetCalculator.tsx:189-198 | the texts a material change writes pass the edit gate |
| CabinetCalculator.DrawerFieldsAfterEdit | components/CabinetCalculator.tsx:77-89 | the drawer fields after an edit's effects; EditRestoresDrawerFields states that they follow the cabinet again |
| CabinetCalculator.EditRestoresDrawerFields | components/CabinetCalculator.tsx:77-89 | after an accepted edit the two effects bring the drawer quantity and height back in line with the cabinet |
| CabinetCalculator.SettledDrawer | components/CabinetCalculator.tsx:129-131 | in the settled state the drawer quantity reads as the shelves, the thickness as 2 and the height as the derived height |
| CabinetCalculator.SettledFiguresNonNegative | components/CabinetCalculator.tsx:104-180 | in the settled state every shown weight and estimate is >= 0 |
| CabinetCalculator.Calculator.constructor | components/CabinetCalculator.tsx:34-89 | mounting sets the initial fields, drawers off, the drawer quantity "5", thickness "2.0" and height "26.5", and leaves the state settled |
| CabinetCalculator.Calculator.HandleChange | components/CabinetCalculator.tsx:183-187 | the edit is applied exactly when the text is empty or passes the gate, and then only that key changes |
| CabinetCalculator.Calculator.SyncDrawerQuantity | components/CabinetCalculator.tsx:77-79 | the drawer quantity becomes the shelves text |
| CabinetCalculator.Calculator.SyncDrawerHeight | components/CabinetCalculator.tsx:81-89 | with shelves > 0 the drawer height becomes the derived text, otherwise it is unchanged |
| CabinetCalculator.Calculator.Recompute | components/CabinetCalculator.tsx:104-181 | the breakdown and estimates become those of the current fields |
| CabinetCalculator.Calculator.Edit | components/CabinetCalculator.tsx:183-187 | a rejected edit changes nothing; an accepted one changes only that key in the fields, sets the drawer fields to what the effects of that key produce (the height unchanged when shelves <= 0), and the state settles again |
| CabinetCalculator.Calculator.RunEditEffects | components/CabinetCalculator.tsx:77-181 | after an accepted edit the quantity and height effects set the drawer fields to what the edit calls for, and the recompute leaves the state settled |
| CabinetCalculator.Calculator.ChangeMaterial | components/CabinetCalculator.tsx:189-198 | the fields become the material change's, the drawer fields stay, and the state settles again |
| CabinetCalculator.Calculator.ToggleDrawers | components/CabinetCalculator.tsx:254 | the switch flips the drawers and the state settles again |
| CabinetCalculator.Calculator.DeductAmount | components/CabinetCalculator.tsx:332-336 | the buttons hand on the shown cabinet grams, or the drawers' grams while drawers are on, never negative |
| ProgressBar.Clamp | components/ProgressBar.tsx:10 | the clamp lies in [0, 100] and keeps values already there |
| ProgressBar.Percentage | components/ProgressBar.tsx:10 | the percentage lies in [0, 100] whenever it is a number; it is NaN exactly for 0 of 0 |
| ProgressBar.PercentageOfStock | components/ProgressBar.tsx:10 | for 0 <= current <= total with total > 0 the percentage is the plain share |
| ProgressBar.PercentageMonotone | components/ProgressBar.tsx:10 | more stock never shows a smaller percentage |
| ProgressBar.IsLowStock | components/ProgressBar.tsx:11 | `current < lowStockThreshold`; App.LowStock lists exactly the spools it flags |
| ProgressBar.Color | components/ProgressBar.tsx:13-18 | the colour chain; RedIff, YellowIff, EmeraldIff, MoreStockNoWorseColor and EmptySpoolIsRed state its outcomes |
| ProgressBar.RedIff | components/ProgressBar.tsx:11-15 | red exactly when the percentage is below 20 or the stock is below the threshold |
| ProgressBar.YellowIff | components/ProgressBar.tsx:16-17 | yellow exactly when not red and the percentage is below 50 |
| ProgressBar.EmeraldIff | components/ProgressBar.tsx:12-18 | emerald exactly when the stock is not low and the percentage is >= 50 or NaN |
| ProgressBar.MoreStockNoWorseColor | components/ProgressBar.tsx:9-18 | on a spool with a positive total, more stock never shows a more alarming colour (red above yellow above emerald) |
| ProgressBar.EmptySpoolIsRed | components/ProgressBar.tsx:9-15 | with the default threshold of 200 an empty spool is red |
| DeductModal.Check | components/DeductModal.tsx:18-34 | NaN or <= 0 is rejected as invalid; otherwise more than the spool holds is an overdraft; otherwise the amount goes through unchanged |
| DeductModal.AcceptedKeepsStock | components/DeductModal.tsx:25-30 | an accepted amount leaves a non-negative, strictly smaller remaining weight |
| DeductModal.CheckExamples | components/DeductModal.tsx:18-30 | "" and "0" are invalid, 0.5 g of 0.4 g is an overdraft, 12.5 g of 100 g goes through |
| DeductModal.Modal.constructor | components/DeductModal.tsx:13-14 | the dialog opens with an empty field and no error |
| DeductModal.Modal.Input | components/DeductModal.tsx:68-71 | typing stores the text and always clears the error |
| DeductModal.Modal.Confirm | components/DeductModal.tsx:18-34 | a rejection sets exactly one error and keeps the text; an acceptance hands on the grams, empties the field and clears the error |
| App.Filter | App.tsx:181-185 | the result holds exactly the elements that pass, is no longer than the input and is a sub-multiset of it |
| App.FilterIsSubsequence | App.tsx:181-185 | a filter keeps the elements' order |
| App.FilterAppend | App.tsx:181-185 | filtering a concatenation filters each part |
| App.FilterCongruent | App.tsx:181-185 | tests that agree on every element filter alike |
| App.FilterAll | App.tsx:181-185 | when every element passes, the filter keeps the whole list |
| App.FilterAllIff | App.tsx:181-185 | a filter keeps the whole list exactly when every element passes |
| App.FirstIndex | App.tsx:148 | `find` stops at the first entry with the id, or finds none exactly when no entry has it |
| App.Find | App.tsx:99 | the entry found has the id and is in the list; there is none exactly when no entry has the id |
| App.FindUnique | App.tsx:148 | with unique ids the entry found is the one at the id's only position |
| App.Replaced | App.tsx:113 | the map keeps length and ids, replaces the entries with the saved id and keeps all others |
| App.Deleted | App.tsx:87 | delete keeps exactly the entries whose id differs |
| App.DeletedKeepsOrder | App.tsx:87 | delete keeps the other entries in order, and changes nothing when the id is absent |
| App.DeletedKeepsUniqueIds | App.tsx:87 | delete keeps the ids unique |
| App.ReplacedKeepsOthers | App.tsx:113 | replacing leaves the entries with other ids as they were, in order |
| App.ReplacedKeepsUniqueIds | App.tsx:113 | replacing keeps the ids unique |
| App.TotalStock | App.tsx:187 | the total of non-negative weights is non-negative |
| App.TotalStockAppend | App.tsx:187 | the total of a concatenation is the sum of the totals |
| App.TotalStockSplit | App.tsx:187 | the total around one entry is the total before it, plus its weight, plus the total after it |
| App.ReplacedTotal | App.tsx:187 | replacing one entry changes the total by the difference of the two weights |
| App.LowStock | App.tsx:188 | the low-stock list holds exactly the spools the stock bar flags as low at its default threshold |
| App.LowStockAppend | App.tsx:188-189 | the low-stock count of a concatenation is the sum of the counts |
| App.Matches | App.tsx:182-184 | the case-insensitive test on name, brand and material; Search and SearchProperties state what it selects |
| App.Search | App.tsx:181-185 | the result holds exactly the spools whose lower-cased name, brand or material contains the lower-cased term |
| App.SearchProperties | App.tsx:181-185 | the search keeps the list's order, an empty term keeps everything, and the term's case does not matter |
| App.EffectiveName | App.tsx:101 | a spool is compared by its name, or by the default name when it has none |
| App.BaseName | App.tsx:100 | the base name is never empty and never padded; it is the default exactly for names of white space only, else the trimmed name |
| App.IsDuplicate | App.tsx:101 | a name clashes when a spool of another id shows it; OtherNames, ClashBound and ResolveName state its use |
| App.Numbered | App.tsx:106 | the numbered name is longer than its base |
| App.NumberedInjective | App.tsx:105-106 | different counters give different names |
| App.OtherNames | App.tsx:101 | a name is in the set exactly when it clashes with a spool of another id |
| App.OtherNamesBound | App.tsx:101 | there are no more other names than spools |
| App.NumberedNames | App.tsx:105 | the names base (1) to base (c) are all there and the base is not |
| App.NumberedNamesSize | App.tsx:105 | there are exactly c such names |
| App.ClashBound | App.tsx:104-106 | when the base and base (1) to base (c) all clash, c + 1 <= the list length, so the loop stops |
| App.ResolveName | App.tsx:100-107 | the final name clashes with no spool of another id; it is the base when that is free, else base (n) for the least free n, with n <= the list length |
| App.Upserted | App.tsx:99-114 | a new id makes the list one longer, an existing id keeps the length, and either way `find` then returns the saved record |
| App.UpsertedKeepsOthers | App.tsx:110-114 | saving leaves every entry with another id as it was, in order; a new record goes to the front |
| App.UpsertedKeepsUniqueIds | App.tsx:110-114 | saving keeps the ids unique |
| App.UpsertedNameDistinct | App.tsx:101-114 | after a save the saved name differs from the name of every spool with another id |
| App.Deducted | App.tsx:146-158 | the deduction keeps length and ids and touches only entries with the selected id; it changes nothing with no selection, an empty id or an absent id |
| App.DeductedAllWithId | App.tsx:150-158 | every entry with the selected id becomes the first such entry, less the amount and stamped with the time |
| App.DeductedSelected | App.tsx:146-158 | with unique ids the selected spool loses exactly the amount and gets the stamp, the total drops by the amount, and the ids stay unique |
| App.DeductAfterCheck | App.tsx:146-158 | an amount the dialog accepted leaves the selected spool with a non-negative, smaller weight |
| App.Inventory.constructor | App.tsx:19-34 | the list starts empty with no selection |
| App.Inventory.Delete | App.tsx:87 | the list becomes the delete result, and unique ids stay unique |
| App.Inventory.Save | App.tsx:97-114 | the saved record is the input under a name clashing with no spool of another id: the base name when free, else base (n) for the least free n <= the list length; the list becomes the upsert result, and unique ids stay unique |
| App.Inventory.Select | App.tsx:131 | opening the dialog records the spool's id |
| App.Inventory.DeductConfirm | App.tsx:146-158 | the list becomes the deduction result |
| App.Inventory.ConfirmFromModal | App.tsx:344 | the dialog's decision on the selected spool decides the update and the dialog's text and error as in Confirm; the selection is kept; an accepted deduction is the deduction of the selected spool and leaves it with a non-negative, smaller weight |
| StorageService.Truthy | services/storageService.ts:17 | JavaScript truthiness of `created_at`; MapFromDb states the `lastUsed` fallback it guards |
| StorageService.IsoOfStamp | services/storageService.ts:17 | `new Date(created_at).toISOString()`; MapFromDb and RoundTrip state the value it supplies |
| StorageService.CreatedAtOf | services/storageService.ts:16 | a numeric `created_at` passes through unchanged and a missing one gives none |
| StorageService.MapFromDb | services/storageService.ts:7-18 | the fields are copied under their new names; a missing, NaN or zero price reads as 0 and any other price as itself; a usable `last_used` is kept, otherwise a truthy `created_at` gives its ISO text; `lastUsed` is absent exactly when there is neither `last_used` nor a truthy `created_at`; the read fails exactly when the fallback date is invalid |
| StorageService.MapToDb | services/storageService.ts:20-31 | the fields are copied under their column names, and `created_at` becomes ISO text; it fails exactly when `createdAt` is missing or out of range |
| StorageService.RoundTrip | services/storageService.ts:7-31 | writing and reading back gives the same spool, except that a missing `lastUsed` comes back as the creation time's ISO text |
| StorageService.SecondTripStable | services/storageService.ts:7-31 | after one round trip, writing and reading again changes nothing |

## Left out

- Network storage: the asynchronous fetch, add, update and delete calls, the client setup, the optimistic updates and their rollback on failure. `Inventory` applies each list change at once.
- User interface: rendering, `window.confirm` and `alert`, scrolling, the saved view mode, the dialogs' open and close state, and the prefilled weight. The deduction dialog never reads the prefilled weight it is passed.
- The AI advisor, the database set-up dialog, the edit form (its random ids and timestamps), the low-stock dialog and the settings dialog.
- IEEE-754 arithmetic: numbers are exact reals, so rounding error, overflow and Infinity are not modelled. The only NaN modelled is parseFloat's.
- `parseFloat`: leading white space and the literal `Infinity` are not modelled. The calculator's gate and the dialog's number input never pass either.
- `toLowerCase`: the search lower-cases ASCII letters only, not full Unicode case mapping.
- `MATERIAL_PRESETS[material]`: a key inherited from `Object.prototype`, such as "constructor", is treated as unknown, where JavaScript would read the inherited value.
- `toFixed(1)` and `toString()` are modelled for non-negative values only (and `toString()` for values with at most two decimals). The height effect and the material presets use no others.
- Date conversions (`new Date(...).getTime()`, `toISOString()`, and the time of a deduction) are parameters. A `createdAt` of null, undefined or NaN is modelled as absent, so `new Date(null)` (the epoch) is not distinguished.
- The text of the overdraft message: the model keeps only the number it mentions.
- CabinetCalculator.Calculator.RunEditEffects: runs the effects once, in the order quantity, height, recompute. React would run the recompute effect again after the drawer fields change; the second run is modelled by ordering the recomputation last.
- App.Inventory.ConfirmFromModal: requires the selection to be present. The source dereferences `find(...)!`, which fails when the selected spool is gone.
- The calculator's `Math.round` on the breakdown is modelled; the `toFixed(2)` on the shown costs is display only.

## Findings

| source | as written | input that shows it | evidently intended | confidence | as-written member | corrected member |
|---|---|---|---|---|---|---|
| components/CabinetCalculator.tsx:200-204 | the minutes are the rounded fractional hour, which can round up to 60 without carrying into the hours | 0.999 h is shown as "60m" (and 1.999 h as "1h 60m") | minutes below 60, carried into the hours | not executed | CabinetCalculator.FormatTimeShowsSixtyMinutes | CabinetCalculator.FormatTimeCorrectedCarries |
