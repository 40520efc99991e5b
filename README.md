# Checkout pricing and wizard — a Dafny model

This project models the core of a dental-plan sales site's checkout. It covers:

- **The tiered price table.** Each plan has a monthly fee and an enrollment fee per person. Neither ever rises as the number of dependents grows, and both stay fixed from the last tier on.
- **The quote engine.** It computes a simplified pro-rata for the rest of the current month. The annual price is 11 months plus that pro-rata, with a flat 10% discount. Enrollment is charged per person. The amount due now depends on the billing cycle.
- **The cart store.** It holds the chosen plan, the billing cycle, the number of dependents and the payer.
- **The three-step checkout wizard.** The steps are coverage, identification and payment. It has an entry guard, a progress bar and an order summary.
- **The step-local logic of the three forms.** This covers:
  - the dependents list, whose length is mirrored into the cart;
  - the CPF (Brazilian taxpayer number) lookup guard and autofill;
  - the payer record;
  - the postal-code (CEP) blur handler;
  - the submit gates.
- **The two lookup interpreters.** One validates a CEP against the ViaCEP answer and the covered-city table. The other interprets the national health registry's answer for a CPF.

Module layout, one per source file:

- `PricingData` and `PricingEngine` (pure);
- `CartStore` (a class over the four store fields);
- `CheckoutPage` (pure rendering plus the `Wizard` class holding `currentStep`);
- `PersonalDataStep`, `PaymentStep` and `AddressStep`, each holding a class for the step's mutable state plus its pure validators;
- `AddressService` and `UserInfo` (pure, once the HTTP exchange is an input value).

Two shared modules support them. `JsText` gives the JavaScript string operations the source relies on: `replace(/\D/g, "")`, `split`, `toUpperCase` and first-word extraction. `Basics` gives `Option`.

Modelling choices:

- Money is exact `real` arithmetic.
- The clock read becomes explicit `day` and `month` parameters.
- Each HTTP exchange is an input datatype with a `Threw` case.
- The e-mail check of the validation library is a parameter `isEmail`.
- The covered-city and street-type tables are `map` parameters.

## Model

| member | source | states |
|---|---|---|
| PricingData.PricingTable | src/features/checkout/services/pricing-data.ts:10-32 | the table has exactly the five plan ids "quality", "quality-plus", "smart", "kids" and "light-plus"; every other id is absent |
| PricingData.TableWellFormed | src/features/checkout/services/pricing-data.ts:10-32 | every plan has four monthly and four enrollment tiers; all are positive and non-increasing |
| PricingData.TierIndex | src/features/checkout/services/pricing-data.ts:39 | the clamped index is below the length, at most the count, and equal to the count or to the last index |
| PricingData.GetTieredFee | src/features/checkout/services/pricing-data.ts:34-41 | the monthly fee is never negative and is 0 for an unknown plan id |
| PricingData.GetEnrollmentFee | src/features/checkout/services/pricing-data.ts:43-49 | the enrollment fee is never negative and is 0 for an unknown plan id |
| PricingData.LookupIsClampedEntry | src/features/checkout/services/pricing-data.ts:5-14 | a count below the tier length reads exactly that entry (index 0 means no dependents); a count at or past the last tier reads the last entry; both lookups |
| PricingData.ClampsToLastTier | src/features/checkout/services/pricing-data.ts:38-40 | every count from 3 on is priced as 3 dependents, for both fees |
| PricingData.FeesNonIncreasing | src/features/checkout/services/pricing-data.ts:11-31 | more dependents never raise the monthly or the enrollment fee per person |
| PricingData.KnownPlanFeesPositive | src/features/checkout/services/pricing-data.ts:11-31 | a known plan charges positive fees for any count |
| PricingEngine.DaysBase | src/features/checkout/services/pricing-engine.ts:29-30 | the month base is 28 exactly in February and 30 otherwise |
| PricingEngine.DaysToEndOfMonth | src/features/checkout/services/pricing-engine.ts:32-34 | the remaining days are `max(0, base - day)`, and at most `base - 1` for a real day |
| PricingEngine.ProRata | src/features/checkout/services/pricing-engine.ts:38 | the pro-rata lies between 0 and fee times people, and is that amount scaled by remaining days over the base |
| PricingEngine.Quote | src/features/checkout/services/pricing-engine.ts:22-70 | the quote for given fees: people is dependents + 1; the monthly total, pro-rata bounds and proportion, the annual total `0.9 * (11 months + pro-rata)`, and the amount due now per cycle plus enrollment times people |
| PricingEngine.CalculateCheckout | src/features/checkout/services/pricing-engine.ts:12-71 | `calculateCheckout`: the quote built from the table's tiered fees for the plan and count, so every `Quote` property holds of it |
| PricingEngine.QuoteNonNegative | src/features/checkout/services/pricing-engine.ts:38-60 | with non-negative fees every amount of the quote is non-negative |
| PricingEngine.CycleOnlyAffectsTotalDueNow | src/features/checkout/services/pricing-engine.ts:47-60 | the monthly and yearly quotes differ only in the amount due now |
| PricingEngine.MonthlyDueNowAtMostYearly | src/features/checkout/services/pricing-engine.ts:38-60 | for the same plan, count and date, paying monthly never asks for more now than paying yearly |
| PricingEngine.QualityOneDependentMonthly | src/features/checkout/services/pricing-engine.ts:22-60 | plan "quality", one dependent, day 20 outside February, monthly: fee 66, pro-rata 44, due now 76 |
| PricingEngine.QualityOneDependentYearly | src/features/checkout/services/pricing-engine.ts:22-60 | the same, yearly: annual total 1346.4, due now 1378.4 |
| PricingEngine.KidsFiveDependentsUsesLastTier | src/features/checkout/services/pricing-engine.ts:25-26 | plan "kids" with five dependents uses the last tier (20 and 8) for six people |
| CartStore.WithPlan | src/features/cart/store/cart-store.ts:35 | the plan and cycle are set together; count and payer unchanged |
| CartStore.WithDependentsCount | src/features/cart/store/cart-store.ts:36 | only the count changes, to the new value |
| CartStore.WithPayer | src/features/cart/store/cart-store.ts:37 | only the payer changes, replaced whole |
| CartStore.Cleared | src/features/cart/store/cart-store.ts:39 | no plan, count 0, holder pays, and the billing cycle kept as it was |
| CartStore.DependentsCountOverrides | src/features/cart/store/cart-store.ts:36 | a second count replaces the first outright, so setting the same count twice equals setting it once |
| CartStore.ClearedIsInitialButCycle | src/features/cart/store/cart-store.ts:29-39 | a cleared cart is the initial cart except for the billing cycle |
| CartStore.OperationsKeepPayerWellFormed | src/features/cart/store/cart-store.ts:5-11 | every store operation keeps a holder payer free of personal fields |
| CartStore.CycleForToggle | src/features/catalog/components/plan-card.tsx:28 | the annual switch selects the yearly cycle, and only it does |
| CartStore.Cart.constructor | src/features/cart/store/cart-store.ts:29-33 | the store starts with no plan, monthly cycle, no dependents, holder paying |
| CartStore.Cart.SetPlan | src/features/cart/store/cart-store.ts:35 | `setPlan`: the new state is `WithPlan` of the old |
| CartStore.Cart.SetDependentsCount | src/features/cart/store/cart-store.ts:36 | `setDependentsCount`: the new state is `WithDependentsCount` of the old |
| CartStore.Cart.SetPayer | src/features/cart/store/cart-store.ts:37 | `setPayer`: the new state is `WithPayer` of the old |
| CartStore.Cart.ClearCart | src/features/cart/store/cart-store.ts:39 | `clearCart`: the new state is `Cleared` of the old |
| CartStore.SelectPlan | src/features/catalog/components/plan-card.tsx:28 | choosing a plan card stores the plan with the cycle of the annual switch |
| CheckoutPage.Navigate | src/app/checkout/page.tsx:121-141 | next goes 1→2→3, back goes 3→2→1; back from 1 leaves for "/#planos"; next on 3 stays; every target is a step |
| CheckoutPage.NextAndBackAreInverse | src/app/checkout/page.tsx:121-141 | inside the wizard, back undoes next and next undoes back |
| CheckoutPage.StepIndicators | src/app/checkout/page.tsx:19-23 | the progress bar lists the three steps in order, with their ids and names |
| CheckoutPage.ProgressBarShape | src/app/checkout/page.tsx:74-75 | exactly one step is active, the current one; the completed steps are exactly those before it |
| CheckoutPage.SummaryOf | src/app/checkout/page.tsx:164-233 | the summary shows the plan's name, people, fee per person, enrollment times people and the amount due now; the pro-rata and next-installment lines appear only when monthly; the discount badge appears only when yearly |
| CheckoutPage.RenderPage | src/app/checkout/page.tsx:34-45 | no plan means a redirect to "/#planos" and nothing else; otherwise the progress bar and the summary of `calculateCheckout` for the cart's plan, count and cycle |
| CheckoutPage.Wizard.constructor | src/app/checkout/page.tsx:31 | the wizard opens on step 1 |
| CheckoutPage.Wizard.Dispatch | src/app/checkout/page.tsx:121-141 | a button press follows `Navigate`; the step stays in 1..3 and moves by exactly one, or not at all |
| JsText.DigitsOnly | src/features/checkout/actions/get-user-info.ts:23 | the stripped text is no longer than the input, holds only digits, and is the input itself when that is all digits |
| JsText.DigitsOnlySingle | src/features/checkout/actions/get-user-info.ts:23 | a single character survives exactly when it is a digit |
| JsText.DigitsOnlyIdempotent | src/features/checkout/actions/get-user-info.ts:23 | a CPF or CEP that is already stripped stays the same when stripped again |
| JsText.DigitsOnlyAppend | src/features/checkout/actions/get-user-info.ts:23 | stripping distributes over concatenation; with `DigitsOnlySingle` this fixes the result as the digits of the input in order |
| JsText.Split | src/features/checkout/actions/get-user-info.ts:59 | `split` returns at least one piece and no piece holds the separator |
| JsText.JoinSplit | src/features/checkout/actions/get-user-info.ts:59 | joining the pieces of a split gives back the string |
| JsText.SplitJoin | src/features/checkout/actions/get-user-info.ts:59 | splitting a join of separator-free pieces gives back the pieces |
| JsText.FirstWord | src/features/checkout/services/address-service.ts:49 | the first word contains no space |
| JsText.FirstWordIsPrefix | src/features/checkout/services/address-service.ts:49 | the first word is a prefix of the text, followed by a space or the end |
| JsText.ToUpperCase | src/features/checkout/services/address-service.ts:49 | upper-casing keeps the length and maps each character on its own by `UpperChar` (ASCII `a`..`z`, Latin-1 `à`..`þ` except `÷`, plus `µ` and `ÿ`) |
| UserInfo.FormatBirthDate | src/features/checkout/actions/get-user-info.ts:59-60 | the date split at "/", printed as part 3, "-", part 2, "-", part 1, with a missing part printed as "undefined"; its meaning on a well-formed date is `FormatBirthDateReverses` |
| UserInfo.FormatBirthDateReverses | src/features/checkout/actions/get-user-info.ts:59-60 | "DD/MM/YYYY" becomes "YYYY-MM-DD", the same three parts reversed |
| UserInfo.GetUserInfo | src/features/checkout/actions/get-user-info.ts:21-77 | a CPF not stripping to 11 digits fails "CPF inválido"; a throw fails "Falha na comunicação…"; a non-ok status fails "Erro ao consultar…"; a missing record or `resultado != 1` fails "CPF não encontrado…"; success holds exactly when none of these apply, mapping name, mother, CNS, the sex code unchanged and the reformatted date |
| UserInfo.OnlyDigitsOfCpfMatter | src/features/checkout/actions/get-user-info.ts:23-27 | punctuation in the CPF never changes the answer |
| AddressService.Covered | src/features/checkout/services/address-service.ts:39-41 | a city is served when it is a key of the coverage table with a non-zero (truthy) code |
| AddressService.StreetTypeId | src/features/checkout/services/address-service.ts:49-50 | the street type is the table entry of the upper-cased first word when present and non-zero, else the "OUTRO" entry |
| AddressService.StreetTypeFromFirstWord | src/features/checkout/services/address-service.ts:49-50 | only the first word decides the street type, whatever its letter case |
| AddressService.ValidateZipCode | src/features/checkout/services/address-service.ts:21-62 | a CEP not stripping to 8 digits is "CEP inválido."; a throw is "Erro ao consultar CEP…"; `erro` is "CEP não encontrado."; an uncovered city names city and UF; valid exactly when none of these apply, then with the data, the city code and the street type; every invalid result carries a non-empty error |
| AddressService.CoverageIsExactKey | src/features/checkout/services/address-service.ts:39-46 | a city that is not a key of the coverage table is refused |
| PersonalDataStep.DependentValid | src/features/checkout/components/steps/personal-data-step.tsx:15-21 | `dependentSchema`: name at least 5 characters, CPF at least 11, birth date, sex and relationship non-empty |
| PersonalDataStep.PersonalDataValid | src/features/checkout/components/steps/personal-data-step.tsx:23-32 | `personalDataSchema`: name at least 5, CPF at least 11, a valid e-mail, phone at least 10, birth date and sex non-empty, mother optional, and every dependent valid |
| PersonalDataStep.EmptyFormInvalid | src/features/checkout/components/steps/personal-data-step.tsx:15-32 | the empty holder form and a blank dependent never validate |
| PersonalDataStep.BlankDependentBlocksSubmit | src/features/checkout/components/steps/personal-data-step.tsx:15-32 | a freshly appended blank dependent makes the whole form invalid |
| PersonalDataStep.RemovingKeepsValid | src/features/checkout/components/steps/personal-data-step.tsx:23-32 | removing a dependent keeps a valid form valid |
| PersonalDataStep.CpfForLookup | src/features/checkout/components/steps/personal-data-step.tsx:67-70 | a lookup is attempted exactly when the stripped CPF has 11 digits, and then with exactly the stripped CPF |
| PersonalDataStep.SexAfterLookup | src/features/checkout/components/steps/personal-data-step.tsx:84-85 | code 1 gives "M", code 2 gives "F", any other code keeps the current value |
| PersonalDataStep.GreetingFeedback | src/features/checkout/components/steps/personal-data-step.tsx:87 | the success message greets the holder by the first space-separated word of the found name |
| PersonalDataStep.PersonalData.constructor | src/features/checkout/components/steps/personal-data-step.tsx:55-63 | on mount the list is empty and the cart count is set to 0 |
| PersonalDataStep.PersonalData.AddDependent | src/features/checkout/components/steps/personal-data-step.tsx:257 | appends one blank dependent and writes the new length into the cart; nothing else changes |
| PersonalDataStep.PersonalData.RemoveDependent | src/features/checkout/components/steps/personal-data-step.tsx:270 | removes row `index` only, keeping the order of the rest, and writes the new length into the cart |
| PersonalDataStep.PersonalData.HandleCpfBlur | src/features/checkout/components/steps/personal-data-step.tsx:66-92 | no lookup without 11 digits; a failure changes only the feedback; a success fills name, birth date, mother (when given) and sex, keeps CPF, e-mail and phone, and greets by first name |
| PersonalDataStep.PersonalData.HandleDependentCpfBlur | src/features/checkout/components/steps/personal-data-step.tsx:95-114 | only row `index` can change; success fills its name, birth date and sex; failure changes nothing |
| PaymentStep.PayerFormValid | src/features/checkout/components/steps/payment-step.tsx:15-20 | `payerSchema`: name at least 5 characters, CPF at least 11, a valid e-mail, phone at least 10 |
| PaymentStep.FormDefaults | src/features/checkout/components/steps/payment-step.tsx:38-43 | each form field is the stored payer's field, or "" where absent |
| PaymentStep.PayerFromForm | src/features/checkout/components/steps/payment-step.tsx:72-73 | a non-holder payer carrying all four fields |
| PaymentStep.FormDefaultsAfterSubmit | src/features/checkout/components/steps/payment-step.tsx:38-43 | reopening the step after a non-holder submit shows the same form |
| PaymentStep.SubmittedPayer | src/features/checkout/components/steps/payment-step.tsx:68-78 | as holder, exactly `{isHolder: true}` without validation (the button at line 223 skips the form check for the holder); otherwise the four fields, and only when `payerSchema` holds |
| PaymentStep.PayerFoundFeedback | src/features/checkout/components/steps/payment-step.tsx:62 | the success message names the payer found |
| PaymentStep.Payment.constructor | src/features/checkout/components/steps/payment-step.tsx:30-43 | the toggle starts from the stored payer and the form from its fields |
| PaymentStep.Payment.ToggleHolderPayer | src/features/checkout/components/steps/payment-step.tsx:95-96 | each click negates the toggle and changes nothing else |
| PaymentStep.Payment.HandleCpfBlur | src/features/checkout/components/steps/payment-step.tsx:47-66 | no lookup without 11 digits; success overwrites only the full name; failure only the feedback |
| PaymentStep.Payment.Submit | src/features/checkout/components/steps/payment-step.tsx:68-78 | the cart's payer becomes `SubmittedPayer` when there is one; otherwise the cart is unchanged |
| AddressStep.AddressValid | src/features/checkout/components/steps/address-step.tsx:13-21 | `addressSchema`: CEP at least 8 characters, street, number, neighbourhood and city non-empty, UF at least 2, complement optional |
| AddressStep.SubmitDisabled | src/features/checkout/components/steps/address-step.tsx:207 | the button is disabled while submitting or while the CEP error is a non-empty (truthy) string |
| AddressStep.ErrorShown | src/features/checkout/components/steps/address-step.tsx:55 | the shown error is the result's error when that is a non-empty string, and "Erro desconhecido" otherwise |
| AddressStep.Address.constructor | src/features/checkout/components/steps/address-step.tsx:31-33 | no error, no coverage, not loading |
| AddressStep.Address.HandleCepBlur | src/features/checkout/components/steps/address-step.tsx:40-72 | a raw CEP under 8 characters is ignored; an invalid result shows its error, clears coverage and blanks street, neighbourhood, city and UF; a valid one sets coverage, clears the error and fills those four fields from the answer |
| AddressStep.Address.ConfirmDisabled | src/features/checkout/components/steps/address-step.tsx:207 | the gate is `SubmitDisabled` of the current state; since a shown error is never empty, confirm is disabled exactly while submitting or while a CEP error is shown |
| AddressStep.InvalidLookupBlocksConfirm | src/features/checkout/components/steps/address-step.tsx:40-72 | any invalid lookup leaves confirm disabled, coverage off and the address form invalid |

## Left out

- Network I/O. This covers the registry and ViaCEP requests, their URLs, headers and JSON decoding. Each exchange is an input value that either threw or answered. A malformed JSON body counts as a throw.
- The clock. `new Date()` is replaced by `day` and `month` parameters.
- Floating-point arithmetic and `toFixed(2)` display rounding. Amounts are exact reals.
- The plan card's display price and its cents split. Only its `isAnnual` → cycle mapping is kept (`CartStore.SelectPlan`).
- Store persistence. The store keeps the cart in the browser's local storage, so it survives across browser sessions; the model holds one session's state.
- Asynchronous timing: the loading spinners as they appear mid-request, `setTimeout` delays, `alert`, `console` output and focus moves. Two lookups whose answers arrive out of order are not modelled either; each blur handler runs to completion as one step.
- React effect timing. The personal-data step writes the list length into the cart in an effect. Here the write happens in the same step as the list change.
- The validation library's e-mail format check. It is the parameter `isEmail`.
- The contents of the covered-city and street-type tables. Both are `map` parameters.
- Form fields that start `undefined` are the empty string. Every check the source applies treats the two alike.
- `JsText.ToUpperCase`: upper-cases ASCII `a`..`z`, Latin-1 `à`..`þ` except `÷`, plus `µ` and `ÿ`, and nothing else. Letters of other scripts are left unchanged, and so is "ß", whose upper-case form is the two letters "SS".
- String lengths. JavaScript's `.length` counts UTF-16 code units, and `|s|` counts Unicode scalar values. The two differ for characters outside the Basic Multilingual Plane, such as emoji. The minimum-length checks of the three schemas and the step's `cep.length < 8` test are stated on `|s|`. For example, a three-emoji name passes `min(5)` in the code but fails `PersonalDataStep.DependentValid`.
- Coverage lookups by a key every JavaScript object has. `ALLOWED_CITIES[data.localidade]` is an object lookup, so a locality named "constructor" or "toString" is truthy there and accepted. `AddressService.Covered` and `AddressService.CoverageIsExactKey` refuse it, because the tables are maps. Coverage lookups are only affected this way. The street-type key is an upper-cased word, and every key that all JavaScript objects have contains lower-case letters. So `AddressService.StreetTypeId` agrees with the code on every street.
- A plan id that names a property every JavaScript object has (such as "constructor") would make the table lookup throw. Here it is an unknown plan priced at 0.
- A valid ZIP-code result always carries its data, so the step's "valid but no data" branch cannot arise.
- Negative dependent counts are excluded by `nat`, since the count always comes from a list length.
- The step components' markup, animation and styling, and the site's presentation pages.
- Per-step validation gating the wizard's "next" is stated by the schema predicates. It is not wired into `CheckoutPage.Wizard.Dispatch`.
- Behaviour of the code that the model keeps, although a reader might expect otherwise:
  - Going back in the wizard does not keep what was typed. The steps unmount, so re-entering the identification step starts with no dependents and writes 0 into the cart (`PersonalDataStep.PersonalData.constructor`).
  - A failed CEP request also blocks the confirm button, not only an uncovered city.
  - The registry's sex code is passed through as a number.
  - A birth date without three parts is not rejected. Missing parts print as "undefined".
  - Clearing the cart keeps the billing cycle.
