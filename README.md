# Care-home administration: the client-side rules, modelled in Dafny

The system manages a residential care home (a "panti"). Patients are registered into rooms
under monthly contracts. Each month opens a billing period, and the period collects charges,
expenses and payments. The organisation's members file requests (transactions, inventory
movements, procurements, documents), and those requests go through an approval chain. This
project models the rules that the browser side of the system applies before anything reaches
the server:

- the ledger records and the defaults their columns declare, including the running-balance formula;
- the roles of the access-control statement;
- the dialogs that record a payment, record expenses, open and close a monthly period, and complete a booking;
- the registration wizard: its payment form, its payment method step, and the invoice lines and request it builds;
- the active-patients dashboard and the patient directory;
- the request dialog with its procurement cart, the approvals page, and the camera hook's bounded image list;
- the avatar initials of the members page.

Pure rules (validation chains, labels, totals, formatting, ages, day counts) are datatypes,
functions and lemmas. Loops that accumulate or push (the form totals, the line-item and
expense-item lists, reading the chosen image files) are methods with loop invariants. Each such
method is proved equal to a specification function, and the properties are proved about that
function. Component state that handlers update is a class with `modifies` clauses: the payment,
expense, new-period and complete-booking dialogs, the registration wizard, the request dialog,
the approvals page and the image list. Most handlers take the server's answer as the parameter
`accepted`, and state the request sent and the whole new state. Two do not:
`CreateRequest.RequestDialog.HandleSubmit` and `ApprovalPage.Page.HandleSubmit` only return the
payload they send and leave the state alone. Their success paths are the separate methods
`CreateRequest.RequestDialog.ResetForm` and `ApprovalPage.Page.OnSuccess`, which the mutation's
`onSuccess` callback runs; the model does not tie the two together.

Conventions:

- Money is an unbounded integer number of rupiah.
- A numeric text field is `Entry`: `Blank` for the empty text, which JavaScript treats as
  false, or `Filled(value)`. So `"0"` counts as typed, as it does in the source.
- The registration payment-method step works on the raw digit text, with `None` standing for
  `NaN`.
- Instants are integer milliseconds and calendar dates are (year, month, day) triples. The
  clock is always a parameter.
- Several helpers appear more than once in the source, and each is modelled once:
  - `formatCurrency` and `parseFormattedNumber` are copied into three components;
    `PaymentMethod` holds the one model.
  - `calculateTotalFromPaymentForm` repeats the payment form's running total; it calls
    `PaymentForm.FormTotal`.
  - `calculateAge` and `getGenderLabel` are copied in `patient.tsx:149-169`; they live in
    `PatientDirectory`.

## Model

| member | source | states |
|---|---|---|
| Common.Number | src/components/registration/payment-form.step.tsx:398-399 | `Number` of an empty field is 0, of a typed one its value |
| Common.Contribution | src/components/patients/add-expense-dialog.tsx:119-121 | a line adds its amount exactly when it is ticked and its amount is non-empty, otherwise nothing |
| Common.Optional | src/components/patients/add-payment-dialog.tsx:113 | `text \|\| undefined`: absent exactly for the empty text, the text itself otherwise |
| Common.RemoveAt | src/components/create-request-dialog.tsx:212-214 | `filter((_, i) => i !== index)`: one element shorter, the elements before the index kept, those after shifted down by one; an index outside the list removes nothing |
| Common.Trim | src/components/patients/new-period-dialog.tsx:90 | the trimmed text neither starts nor ends with white space |
| Common.TrimEmptyIffBlank | src/components/patients/new-period-dialog.tsx:90 | `!s.trim()` holds exactly when the text consists of white space only |
| Schema.NewContract | src/db/schema.ts:173-199 | a new contract is ACTIVE and open-ended, with due day 1, which lies in the documented range 1-28 |
| Schema.PeriodStatusNamesExact | src/db/schema.ts:244-248 | the status texts of a billing period are exactly ACTIVE, OVERDUE, SETTLED and UNREALIZED |
| Schema.RunningBalance | src/db/schema.ts:236-238 | balance = totalPaid - (totalCharged + totalExpenses): positive exactly for a credit, negative exactly for a debt |
| Schema.StandingOf | src/db/schema.ts:236-238 | credit exactly when more was paid than charged and spent, debt exactly when less, even exactly when the balance is zero |
| Schema.NewPeriod | src/db/schema.ts:213-255 | a new period is ACTIVE with nothing paid or spent, its total charged is the sum of its charge columns, and its balance is minus that sum |
| Schema.WithTotals | src/db/schema.ts:228-238 | replacing paid and spent keeps the period consistent: the balance is recomputed, never adjusted on its own |
| Schema.BalanceMovesWithTotals | src/db/schema.ts:236-238 | the balance rises by exactly the extra paid and falls by exactly the extra spent |
| Schema.NewPayment | src/db/schema.ts:327-355 | a new payment is PENDING and has no verifier |
| Schema.NewTransaction | src/db/schema.ts:386-415 | a new transaction is realized unless it says otherwise |
| Schema.NewApproval | src/db/schema.ts:466-486 | a new approval is PENDING at step 1 |
| Auth.RolesWithinStatement | src/lib/auth.ts:8-104 | no role is granted a resource or an action outside the access-control statement |
| Auth.ApproveHolders | src/lib/auth.ts:23-58 | a role may approve requests exactly when it is owner, KETUA or BENDAHARA |
| Auth.StaffNeverApprove | src/lib/auth.ts:60-104 | SEKRETARIS, OPERASIONAL, PENGADAAN and NURSE approve nothing |
| Auth.KetuaEqualsOwner | src/lib/auth.ts:23-46 | KETUA holds exactly the owner's permissions |
| Auth.EveryoneRequestsAndReadsLog | src/lib/auth.ts:23-104 | every role may create and read requests and read the log |
| Auth.InvitationHolders | src/lib/auth.ts:23-46 | only the owner and KETUA may create or cancel invitations |
| AddPayment.Validate | src/components/patients/add-payment-dialog.tsx:80-115 | the checks in order (no invoice, amount not positive, amount above the balance, transfer without a reference); the request is built exactly when all pass, carrying the bank fields exactly for a bank transfer |
| AddPayment.SentPaymentWithinBalance | src/components/patients/add-payment-dialog.tsx:86-95 | every request sent pays a positive amount no larger than the outstanding balance |
| AddPayment.ExactBalanceAccepted | src/components/patients/add-payment-dialog.tsx:92-95 | paying exactly the outstanding balance is accepted |
| AddPayment.SubmitDisabled | src/components/patients/add-payment-dialog.tsx:309 | the save button is greyed out while submitting, while the amount is empty, and while it is not positive |
| AddPayment.EnabledButtonPassesAmountCheck | src/components/patients/add-payment-dialog.tsx:309 | a clickable save button guarantees that the handler's amount check passes |
| AddPayment.Dialog.constructor | src/components/patients/add-payment-dialog.tsx:53-58 | the dialog opens on cash, with empty amount, reference and notes and the default bank account |
| AddPayment.Dialog.HandleSubmit | src/components/patients/add-payment-dialog.tsx:80-149 | sends exactly the validated request; on success resets amount, method, reference and notes while keeping the bank account; otherwise leaves the form as it was |
| PaymentHistory.MethodLabel | src/components/patients/payment-history-dialog.tsx:107-120 | CASH shows "Tunai", BANK_TRANSFER "Transfer Bank", and anything else shows as itself |
| PaymentHistory.StatusLabel | src/components/patients/payment-history-dialog.tsx:122-136 | VERIFIED, PENDING and REJECTED get their labels, and anything else shows as itself |
| PaymentHistory.Verification | src/components/patients/payment-history-dialog.tsx:277-290 | the verifier's name exactly for a verified payment with a name, the waiting note exactly for a pending one, and a dash otherwise |
| PaymentHistory.VerifiedOnly | src/components/patients/payment-history-dialog.tsx:309 | the filter keeps every VERIFIED payment and nothing else, each no more often than it is listed |
| PaymentHistory.AllVerifiedKept | src/components/patients/payment-history-dialog.tsx:309 | when every payment is verified, the filter keeps the whole history in its order |
| PaymentHistory.Amounts | src/components/patients/payment-history-dialog.tsx:310 | the listed amounts, one per payment, in order |
| PaymentHistory.RecordedTotalAppend | src/components/patients/payment-history-dialog.tsx:307-311 | one more payment adds its amount to the recorded total when it is verified, and nothing otherwise |
| PaymentHistory.RecordedTotal | src/components/patients/payment-history-dialog.tsx:307-311 | "Total Pembayaran Tercatat" adds up the amounts of the VERIFIED payments only |
| PaymentHistory.UnverifiedLeavesTotal | src/components/patients/payment-history-dialog.tsx:307-311 | a pending or rejected payment never changes the recorded total |
| PaymentHistory.RecordedTotalBounded | src/components/patients/payment-history-dialog.tsx:307-311 | with non-negative amounts the recorded total lies between 0 and the sum of all amounts, and equals that sum when every payment is verified |
| PaymentHistory.PendingNote | src/components/patients/payment-history-dialog.tsx:314 | the pending footnote is shown exactly when some payment is PENDING |
| SettlePeriod.HandleSettle | src/components/patients/settle-period-dialog.tsx:62-97 | without a period nothing is sent; with a period and the server's acceptance the reported revenue is the remaining balance |
| SettlePeriod.OverspentReportedNegative | src/components/patients/settle-period-dialog.tsx:84-88 | an overspent period is reported as negative revenue, not as zero |
| SettlePeriod.Percent | src/components/patients/settle-period-dialog.tsx:107 | the percentage is undefined exactly when nothing was prepaid; otherwise percent times whole equals part times 100 |
| SettlePeriod.Render | src/components/patients/settle-period-dialog.tsx:100-192 | nothing is drawn without a period; the revenue shown is the remaining balance, and the bar is the complement of the spent percentage |
| SettlePeriod.SpentPercentAtMostHundred | src/components/patients/settle-period-dialog.tsx:174-180 | with a positive prepayment, the spent share is at most 100% exactly when no more was spent than prepaid |
| NewPeriod.MonthlyAmount | src/components/patients/new-period-dialog.tsx:53 | `monthlyContractAmount \|\| '0'`: a missing amount counts as 0 |
| NewPeriod.TotalPaymentRequired | src/components/patients/new-period-dialog.tsx:53-55 | the payment required is the monthly amount plus every unpaid charge carried over |
| NewPeriod.NoDebtMeansMonthlyAmount | src/components/patients/new-period-dialog.tsx:53-55 | without unpaid charges the payment required is the monthly amount |
| NewPeriod.ChargeRaisesTotal | src/components/patients/new-period-dialog.tsx:54-55 | each unpaid charge raises the payment required by exactly its amount |
| NewPeriod.RequirementCoversMonthly | src/components/patients/new-period-dialog.tsx:54-55 | with non-negative charges, the payment required never falls below the monthly amount |
| NewPeriod.Validate | src/components/patients/new-period-dialog.tsx:89-109 | refuses a payer name that is empty after trimming, then a bank transfer without an account; otherwise the request carries the trimmed name, the required total, and the account exactly for a transfer |
| NewPeriod.ValidateOnTypedText | src/components/patients/new-period-dialog.tsx:90-97 | in terms of the typed text: a name of white space only is refused, and so is a transfer whose account is white space only |
| NewPeriod.Dialog.constructor | src/components/patients/new-period-dialog.tsx:45-51 | the dialog opens on cash, with an empty name and notes, the default bank account and no charges |
| NewPeriod.Dialog.HandleSubmit | src/components/patients/new-period-dialog.tsx:89-143 | sends exactly the validated request; on success reports the monthly amount and resets the form; otherwise leaves it as it was |
| NewPeriod.Dialog.ResetForm | src/components/patients/new-period-dialog.tsx:129-133 | the name and notes are emptied, the method returns to cash and the bank account to its default; the fetched charges are kept |
| CompleteBooking.CeilDiv | src/components/patients/complete-booking-dialog.tsx:80 | `Math.ceil(a / b)`: the least whole number of b-sized parts that covers a |
| CompleteBooking.CalculateDays | src/components/patients/complete-booking-dialog.tsx:76-82 | the stay is the least number of whole days covering the absolute time between check-in and check-out |
| CompleteBooking.DaysSymmetric | src/components/patients/complete-booking-dialog.tsx:79 | swapping the two dates gives the same number of days |
| CompleteBooking.WholeDays | src/components/patients/complete-booking-dialog.tsx:79-80 | a stay of exactly k days counts k days |
| CompleteBooking.PartDayRoundsUp | src/components/patients/complete-booking-dialog.tsx:80 | a day that has begun counts in full |
| CompleteBooking.Validate | src/components/patients/complete-booking-dialog.tsx:84-112 | refuses a missing date, then a check-out before check-in, then an outstanding balance; otherwise builds the request with the date and the optional notes |
| CompleteBooking.HasOutstandingBalance | src/components/patients/complete-booking-dialog.tsx:84 | a balance is outstanding exactly when there is an invoice whose balance is above zero |
| CompleteBooking.SubmitDisabled | src/components/patients/complete-booking-dialog.tsx:259 | the complete button is greyed out while submitting, without a check-out date, and with a balance outstanding |
| CompleteBooking.SettledInvoiceDoesNotBlock | src/components/patients/complete-booking-dialog.tsx:84 | a balance of zero or below never blocks completion |
| CompleteBooking.EnabledButtonOnlyChecksOrder | src/components/patients/complete-booking-dialog.tsx:259 | once the complete button can be clicked, only the order of the dates can still refuse |
| CompleteBooking.Dialog.constructor | src/components/patients/complete-booking-dialog.tsx:51-56 | the check-out date starts as today, with empty notes |
| CompleteBooking.Dialog.HandleSubmit | src/components/patients/complete-booking-dialog.tsx:86-139 | sends exactly the validated request; on success reports the length of stay and resets date and notes; otherwise leaves them as they were |
| PatientDirectory.CalculateAge | src/routes/dashboard/patient_.all.tsx:79-90 | the difference of the years, one less while this year's birthday is still ahead |
| PatientDirectory.AgeIsAnniversariesPassed | src/routes/dashboard/patient_.all.tsx:79-90 | the age is the number of birthdays passed: the age-th birthday is on or before today and the next one is after it |
| PatientDirectory.AgeMonotone | src/routes/dashboard/patient_.all.tsx:79-90 | the age never decreases as time passes |
| PatientDirectory.GetGenderLabel | src/routes/dashboard/patient_.all.tsx:56-63 | MALE, FEMALE and OTHER get their labels, and any other code shows as itself |
| PatientDashboard.CeilDaysBounds | src/routes/dashboard/patient.tsx:207 | `Math.ceil` of a time difference in days, of either sign, is the least whole number of days covering it |
| PatientDashboard.IsDueDateNear | src/routes/dashboard/patient.tsx:202-209 | no warning without a due date; otherwise a warning exactly when the rounded-up days to it lie in 0..10 |
| PatientDashboard.DueDateNearWindow | src/routes/dashboard/patient.tsx:202-209 | in instants: the warning shows exactly when the due date is less than a day past and at most ten days ahead |
| PatientDashboard.CountsPartition | src/routes/dashboard/patient.tsx:253-265 | the paid and unpaid cards always add up to the number of active patients |
| PatientDashboard.PaymentBadge | src/routes/dashboard/patient.tsx:132-147 | PAID, PARTIAL, UNPAID and OVERDUE get their labels, and any other status shows as itself |
| PatientDashboard.PayShown | src/routes/dashboard/patient.tsx:471 | "Bayar" is shown for an invoice whose balance is above zero |
| PatientDashboard.ExpenseDisabled | src/routes/dashboard/patient.tsx:500 | "Pengeluaran" is greyed out for a monthly contract whose period is missing or not ACTIVE |
| PatientDashboard.SettleShown | src/routes/dashboard/patient.tsx:507 | "Tutup Periode" is offered for a monthly contract that has a period |
| PatientDashboard.SettleEnabled | src/routes/dashboard/patient.tsx:507-514 | and it can be clicked only while that period is ACTIVE |
| PatientDashboard.NewPeriodShownAsWritten | src/routes/dashboard/patient.tsx:507-519 | as written, "Periode Baru" is shown for a monthly period whose status is 'CLOSED' |
| PatientDashboard.NewPeriodShown | src/routes/dashboard/patient.tsx:507-519 | corrected: "Periode Baru" is shown for a monthly period that has been SETTLED |
| PatientDashboard.PayButtonLeadsToPayableInvoice | src/routes/dashboard/patient.tsx:471-483 | a row offering payment also offers the history, and the payment dialog it opens accepts paying the balance off |
| PatientDashboard.ExpenseFollowsSettle | src/routes/dashboard/patient.tsx:500-515 | for a monthly contract, expenses can be recorded exactly when the period can be closed |
| PatientDashboard.NonMonthlyExpensesOpen | src/routes/dashboard/patient.tsx:500 | any other kind of booking can always record expenses |
| PatientDashboard.NewPeriodNeverShown | src/routes/dashboard/patient.tsx:519 | as written, a period whose status the schema allows never shows the new-period button |
| PatientDashboard.NewPeriodAfterSettle | src/routes/dashboard/patient.tsx:507-529 | corrected: a settled monthly period offers the next one, and a row never offers both closing and opening |
| AddExpense.Toggle | src/components/patients/add-expense-dialog.tsx:290-294 | unticking a fixed line empties its amount, so it then contributes nothing; ticking keeps the amount |
| AddExpense.TypeAmount | src/components/patients/add-expense-dialog.tsx:304-309 | the typed amount is stored, and the line is ticked exactly when it already was or the amount is non-empty |
| AddExpense.AddCustomExpense | src/components/patients/add-expense-dialog.tsx:92-103 | appends one ticked custom line with no description or amount, leaving the others as they were |
| AddExpense.RemoveCustomExpense | src/components/patients/add-expense-dialog.tsx:105-107 | keeps exactly the lines without the given id; an id not present changes nothing |
| AddExpense.RemoveConcat | src/components/patients/add-expense-dialog.tsx:105-107 | removal works piecewise, so the surviving lines keep their order |
| AddExpense.RemoveUndoesAdd | src/components/patients/add-expense-dialog.tsx:92-107 | removing a freshly added line restores the list |
| AddExpense.Apply | src/components/patients/add-expense-dialog.tsx:112 | `{ ...exp, [field]: value }`: only the named field changes |
| AddExpense.UpdateCustomExpense | src/components/patients/add-expense-dialog.tsx:109-115 | the edit applies to the lines with the id, and every other line is untouched |
| AddExpense.CalculateTotal | src/components/patients/add-expense-dialog.tsx:117-126 | the accumulating loop computes the displayed total |
| AddExpense.Total | src/components/patients/add-expense-dialog.tsx:117-126 | the total shown: every ticked line with an amount, custom lines with or without a description |
| AddExpense.AddKeepsTotal | src/components/patients/add-expense-dialog.tsx:92-103 | a new custom line leaves the total unchanged |
| AddExpense.BuildExpenseItems | src/components/patients/add-expense-dialog.tsx:130-164 | the push loop builds the submitted items: the fixed lines, then the qualifying custom lines in order |
| AddExpense.Items | src/components/patients/add-expense-dialog.tsx:130-164 | the items submitted: the ticked fixed lines with an amount, then the ticked custom lines with an amount and a description, in list order |
| AddExpense.ItemsOrder | src/components/patients/add-expense-dialog.tsx:132-147 | the nursing line comes first, and snacks next when they are ticked |
| AddExpense.ItemsSumConcat | src/components/patients/add-expense-dialog.tsx:130-164 | the sum of the items splits over concatenation |
| AddExpense.CustomSplit | src/components/patients/add-expense-dialog.tsx:122-124 | the custom total is what is submitted plus the ticked lines without a description |
| AddExpense.FixedSum | src/components/patients/add-expense-dialog.tsx:119-121 | the fixed lines submit exactly what they add to the total |
| AddExpense.TotalVersusSubmitted | src/components/patients/add-expense-dialog.tsx:117-164 | the displayed total is the submitted sum plus the ticked, priced, undescribed custom lines |
| AddExpense.UnsubmittedNonNegative | src/components/patients/add-expense-dialog.tsx:122-124 | with non-negative amounts, what is left unsubmitted is non-negative |
| AddExpense.SubmittedAtMostTotal | src/components/patients/add-expense-dialog.tsx:117-164 | with non-negative amounts, the submitted sum never exceeds the displayed total |
| AddExpense.ReportedTotalOvercounts | src/components/patients/add-expense-dialog.tsx:199-201 | as written, a concrete form reports a total above the sum of the items it records |
| AddExpense.SubmittableTotalIsItemsSum | src/components/patients/add-expense-dialog.tsx:156-164 | the qualifying custom lines total what they submit |
| AddExpense.RecordedTotalMatchesItems | src/components/patients/add-expense-dialog.tsx:130-164 | corrected: the reported figure is exactly the sum of the submitted items |
| AddExpense.TypeCustomAmountAsWritten | src/components/patients/add-expense-dialog.tsx:404-409 | as written: a non-empty amount typed into an unticked line ticks it and keeps its old amount; otherwise the amount is stored and the tick kept; other lines are untouched |
| AddExpense.TypedAmountLost | src/components/patients/add-expense-dialog.tsx:404-409 | as written, typing into an unticked custom line ticks it but loses the amount |
| AddExpense.TypeCustomAmount | src/components/patients/add-expense-dialog.tsx:404-409 | corrected: the typed amount is kept, the line is ticked exactly when it was or the amount is non-empty, and other lines are untouched |
| AddExpense.SubmitDisabled | src/components/patients/add-expense-dialog.tsx:497 | the save button is greyed out while submitting and while the shown total is not positive |
| AddExpense.Dialog.constructor | src/components/patients/add-expense-dialog.tsx:56-70 | the dialog opens with nothing ticked or typed, cash, the default account and today's date |
| AddExpense.Dialog.HandleSubmit | src/components/patients/add-expense-dialog.tsx:128-222 | nothing is sent without a qualifying line; otherwise sends the items built; on success reports the displayed total, which is their sum plus the ticked custom lines without a description, and resets the form, keeping the bank account |
| PaymentForm.ReceivedFromError | src/components/registration/payment-form.step.tsx:143-147 | the payer field reports "Nama penerima harus diisi" exactly when it is empty |
| PaymentForm.ToggleFixed | src/components/registration/payment-form.step.tsx:184-189 | unticking a fixed fee empties it, ticking keeps it, and no other field changes |
| PaymentForm.TypeFee | src/components/registration/payment-form.step.tsx:205-211 | the typed fee is stored, the fee is ticked exactly when it was or the text is non-empty, and no other field changes |
| PaymentForm.AddCustomCategory | src/components/registration/payment-form.step.tsx:78-89 | appends one ticked category with no description or amount |
| PaymentForm.RemoveCustomCategory | src/components/registration/payment-form.step.tsx:91-97 | keeps exactly the categories without the given id; an id not present changes nothing |
| PaymentForm.RemoveCategoryConcat | src/components/registration/payment-form.step.tsx:91-97 | removal distributes over concatenation, so the kept categories keep their order and multiplicity |
| PaymentForm.RemoveUndoesAdd | src/components/registration/payment-form.step.tsx:78-97 | removing a freshly added category restores the list |
| PaymentForm.SetCategoryEnabled | src/components/registration/payment-form.step.tsx:314-320 | the checkbox changes only that category's ticked state |
| PaymentForm.SetCategoryDescription | src/components/registration/payment-form.step.tsx:327-333 | the text field changes only that category's description |
| PaymentForm.SetCategoryAmount | src/components/registration/payment-form.step.tsx:352-360 | the amount is stored, and the category is ticked exactly when the text is non-empty or it already was |
| PaymentForm.FormTotal | src/components/registration/payment-form.step.tsx:396-413 | the accumulating loop computes the form's total |
| PaymentForm.Total | src/components/registration/payment-form.step.tsx:396-413 | the total: every ticked fee with a value and every ticked category with an amount |
| PaymentForm.UncheckRemovesShare | src/components/registration/payment-form.step.tsx:184-189 | unticking a fixed fee takes exactly its share out of the total |
| PaymentForm.TypedFeeCounts | src/components/registration/payment-form.step.tsx:205-211 | typing a value into a fixed fee makes the total count exactly that value for it |
| PaymentForm.CategoriesTotalUpdate | src/components/registration/payment-form.step.tsx:407-412 | replacing one category changes the total by exactly the difference of the two shares |
| PaymentForm.TypedAmountCounts | src/components/registration/payment-form.step.tsx:352-360 | typing a value into a category makes the total count exactly that value for it |
| PaymentForm.UncheckCategoryRemovesShare | src/components/registration/payment-form.step.tsx:314-320 | unticking a category takes exactly its share out of the total |
| PaymentForm.AddKeepsTotal | src/components/registration/payment-form.step.tsx:78-89 | a new category leaves the total unchanged |
| PaymentForm.DefaultFormEmpty | src/components/registration/payment-form.step.tsx:46-56 | the empty form totals 0 and its payer field reports an error |
| PaymentMethod.MethodName | src/components/registration/payment-method.step.tsx:17 | the method names are CASH, TRANSFER and PAYLATER |
| PaymentMethod.MethodNamesDistinct | src/components/registration/payment-method.step.tsx:32-33 | two methods share a name exactly when they are the same method |
| PaymentMethod.Digits | src/components/registration/payment-method.step.tsx:39 | `replace(/\D/g, "")` leaves only digits, and leaves a digit text as it is |
| PaymentMethod.DigitsConcat | src/components/registration/payment-method.step.tsx:39 | the digit filter works piecewise |
| PaymentMethod.DigitChar | src/components/registration/payment-method.step.tsx:41 | the digit written for a value below ten has that value |
| PaymentMethod.NatToDigits | src/components/registration/payment-method.step.tsx:41 | the decimal text of a number has no leading zero and is "0" exactly for 0 |
| PaymentMethod.NatToDigitsValue | src/components/registration/payment-method.step.tsx:41 | reading the decimal text back gives the number |
| PaymentMethod.NumberOf | src/components/registration/payment-method.step.tsx:76 | `Number` of a text is a number exactly for a digit text, and 0 for the empty text |
| PaymentMethod.Group | src/components/registration/payment-method.step.tsx:41 | the grouped text is never shorter than the digits |
| PaymentMethod.FormatText | src/components/registration/payment-method.step.tsx:40-41 | an empty or "0" value shows "0"; otherwise the grouped decimal of its value |
| PaymentMethod.FormatCurrency | src/components/registration/payment-method.step.tsx:38-42 | the digits of the input, shown grouped, and "0" when there are none |
| PaymentMethod.FormatAmount | src/components/registration/payment-method.step.tsx:391 | a number shown grouped, and "0" for 0 |
| PaymentMethod.ParseFormattedNumber | src/components/registration/payment-method.step.tsx:44-46 | `replace(/\./g, "")` removes every dot and leaves a digit text as it is |
| PaymentMethod.ParseConcat | src/components/registration/payment-method.step.tsx:44-46 | dot removal works piecewise |
| PaymentMethod.UngroupGroup | src/components/registration/payment-method.step.tsx:38-46 | removing the dots from a grouped digit text, or filtering its digits, gives the digits back |
| PaymentMethod.FormatParseRoundTrip | src/components/registration/payment-method.step.tsx:352-354 | what the amount field hands on after showing a typed text is the digits of its value, and it reads back as that value |
| PaymentMethod.DisplayStable | src/components/registration/payment-method.step.tsx:350-355 | showing, parsing and showing again gives the same display |
| PaymentMethod.CalculateTotalFromPaymentForm | src/components/registration/payment-method.step.tsx:49-73 | 0 without a payment form; otherwise the same total as the payment form |
| PaymentMethod.PaidAmount | src/components/registration/payment-method.step.tsx:76 | an empty amount pays 0; otherwise `Number` of the text |
| PaymentMethod.Remaining | src/components/registration/payment-method.step.tsx:77 | the total minus what is paid, and not a number exactly when the amount is not |
| PaymentMethod.Classify | src/components/registration/payment-method.step.tsx:380-392 | outstanding exactly for a positive remainder, change exactly for a negative one, settled exactly for zero, and not a number exactly when the remainder is not a number |
| PaymentMethod.LabelText | src/components/registration/payment-method.step.tsx:380 | "Sisa Tagihan:" for an outstanding balance, "Kembalian:" for change, "Status:" otherwise |
| PaymentMethod.ValueText | src/components/registration/payment-method.step.tsx:389-392 | "LUNAS" when settled, otherwise "Rp " and the size of the remainder |
| PaymentMethod.RemainderShownBySize | src/components/registration/payment-method.step.tsx:380-392 | a non-zero remainder shows its size either way, and the label tells the two directions apart |
| PaymentMethod.ExactPaymentSettles | src/components/registration/payment-method.step.tsx:75-77 | paying exactly the total shows LUNAS |
| PaymentMethod.PaylaterEffect | src/components/registration/payment-method.step.tsx:80-84 | the effect sets the amount to "0" exactly when PAYLATER is chosen, a callback exists and the amount is not already "0" |
| PaymentMethod.PaylaterSettlesAtZero | src/components/registration/payment-method.step.tsx:80-84 | after the effect has run once, the amount is "0", the effect is quiet, and the whole total remains due |
| Registration.FixedLine | src/routes/dashboard/registration.tsx:107-129 | a fixed fee yields one line exactly when it is ticked and has a value, carrying that value |
| Registration.CategoryLines | src/routes/dashboard/registration.tsx:131-142 | at most one line per category, each of type CUSTOM |
| Registration.CategoryLinesExact | src/routes/dashboard/registration.tsx:131-142 | some line comes from the categories exactly when some category is ticked, priced and described, and each line comes from such a category |
| Registration.BuildLineItems | src/routes/dashboard/registration.tsx:105-142 | the push loop builds the line items: nursing, snacks, doctor, then the categories in order |
| Registration.LineItems | src/routes/dashboard/registration.tsx:105-142 | the line items billed: the ticked fees with a value, then the ticked categories with an amount and a description, in list order |
| Registration.LinesSumConcat | src/routes/dashboard/registration.tsx:105-142 | the sum of the lines splits over concatenation |
| Registration.CategoryLinesVersusTotal | src/routes/dashboard/registration.tsx:131-142 | the categories' total is the billed lines plus the ticked, priced, undescribed categories |
| Registration.LineItemsVersusTotal | src/routes/dashboard/registration.tsx:105-142 | the total the payment steps show is the billed line items plus the undescribed categories |
| Registration.BankAccountNeverSent | src/routes/dashboard/registration.tsx:155 | as written, no method sends the bank account |
| Registration.BankAccountAsWritten | src/routes/dashboard/registration.tsx:155 | as written, the default bank account goes only with a method named 'BANK_TRANSFER' |
| Registration.BankAccountFor | src/routes/dashboard/registration.tsx:155 | corrected: the default bank account is sent exactly for TRANSFER |
| Registration.RequestFor | src/routes/dashboard/registration.tsx:144-158 | the request carries the ids, the payer, the line items, the notes and the method; PAYLATER pays "0"; the contract amount is the nursing fee; as written, no bank account is sent, a transfer included |
| Registration.PaymentGateGivesLineItems | src/routes/dashboard/registration.tsx:290-301 | leaving the payment step guarantees a non-empty list of line items |
| Registration.LineItemsOpenPaymentGate | src/routes/dashboard/registration.tsx:290-301 | conversely, a payer and one billable line open the payment step's gate |
| Registration.LastStepGate | src/routes/dashboard/registration.tsx:302-303 | finishing needs a method, and for cash or transfer an amount that is positive or not a number |
| Registration.NextDisabled | src/routes/dashboard/registration.tsx:286-304 | the next button is greyed out while submitting, and on each step until its choice is made; the payment step needs a payer and a billable line, and the last step a positive amount unless paying later |
| Registration.Wizard.constructor | src/routes/dashboard/registration.tsx:40-47 | nothing chosen and "0" paid |
| Registration.Wizard.HandleSubmitRegistration | src/routes/dashboard/registration.tsx:95-202 | incomplete data sends nothing; otherwise sends the request for the data, built as written; on success resets the data, otherwise keeps it |
| CreateRequest.CheckItem | src/components/create-request-dialog.tsx:181-198 | refuses an incomplete item, then a new item without a category; otherwise the item enters the cart marked existing or new |
| CreateRequest.ProcurementTotalConcat | src/components/create-request-dialog.tsx:216-220 | the cart total splits over concatenation |
| CreateRequest.ProcurementTotal | src/components/create-request-dialog.tsx:216-220 | the cart total: quantity times unit price, summed over the items |
| CreateRequest.RemoveLowersTotal | src/components/create-request-dialog.tsx:212-220 | removing an item takes exactly its cost out of the total |
| CreateRequest.AddRaisesTotal | src/components/create-request-dialog.tsx:194-220 | adding an accepted item raises the total by exactly its cost |
| CreateRequest.SpecificationsOf | src/components/create-request-dialog.tsx:283-286 | a new item with a category carries "category:" and it, then " \| " and the specifications when there are any; otherwise the specifications as they are |
| CreateRequest.ItemPayloadOf | src/components/create-request-dialog.tsx:281-295 | the line sent carries the item's fields, and its total price is quantity times unit price |
| CreateRequest.ItemPayloads | src/components/create-request-dialog.tsx:281 | one line per cart item, in order |
| CreateRequest.ItemPricesSumToTotal | src/components/create-request-dialog.tsx:278-295 | the line prices sent add up to the request's amount |
| CreateRequest.RequestDialog.constructor | src/components/create-request-dialog.tsx:63-96 | an empty form of medium priority and movement IN, an empty cart and a blank draft |
| CreateRequest.RequestDialog.AddProcurementItem | src/components/create-request-dialog.tsx:181-210 | an accepted draft joins the cart and the draft is cleared; a refused one reports why and changes nothing |
| CreateRequest.RequestDialog.RemoveProcurementItem | src/components/create-request-dialog.tsx:212-214 | drops the item at the index, keeping the others in order |
| CreateRequest.RequestDialog.HandleSubmit | src/components/create-request-dialog.tsx:222-300 | refuses a missing description, then in order: a transaction without its category, then with an amount that is not positive; an inventory movement without an item, then with a quantity that is not positive; a procurement without a category, then with an empty cart; otherwise sends the common fields with the details of that type |
| CreateRequest.RequestDialog.ResetForm | src/components/create-request-dialog.tsx:153-179 | the dialog starts over |
| ApprovalPage.RejectionNeedsComment | src/routes/dashboard/approval.tsx:476-479 | a rejection can be confirmed exactly when its comment is not white space only; an approval always can |
| ApprovalPage.ConfirmDisabled | src/routes/dashboard/approval.tsx:476-479 | confirm is greyed out while a request is in flight, and for a rejection whose comment is blank after trimming |
| ApprovalPage.SentRejectionExplained | src/routes/dashboard/approval.tsx:476-479 | a rejection sent from a clickable button has a comment with a non-space character |
| ApprovalPage.GetRoleLabel | src/routes/dashboard/approval.tsx:191-198 | BENDAHARA, KETUA and SEKRETARIS get their labels, and any other role shows as itself |
| ApprovalPage.Page.constructor | src/routes/dashboard/approval.tsx:64-67 | nothing selected, the dialog closed, and no comment |
| ApprovalPage.Page.OpenDialog | src/routes/dashboard/approval.tsx:127-131 | selects the approval and the decision and opens the dialog, keeping the comment |
| ApprovalPage.Page.TypeComments | src/routes/dashboard/approval.tsx:456 | only the comment changes |
| ApprovalPage.Page.HandleSubmit | src/routes/dashboard/approval.tsx:133-141 | sends exactly when an approval and a decision are chosen, carrying them and the comment as typed |
| ApprovalPage.Page.OnSuccess | src/routes/dashboard/approval.tsx:118-120 | closes the dialog and clears the selection and the comment, keeping the decision |
| ApprovalPage.Page.Cancel | src/routes/dashboard/approval.tsx:466-467 | closes the dialog and clears the comment, keeping the selection |
| Camera.ReadAll | src/hooks/use-camera.ts:140-160 | the data of every image file in order, skipping other files; nothing exactly when some image cannot be read |
| Camera.NonImageSkipped | src/hooks/use-camera.ts:141-143 | a file that is not an image adds nothing |
| Camera.ImagesInOrder | src/hooks/use-camera.ts:140-161 | the images are added in the order they were chosen |
| Camera.ReadFailureSpoilsAll | src/hooks/use-camera.ts:145-164 | one unreadable image discards the whole batch |
| Camera.ErrorUpdatesAsWritten | src/hooks/use-camera.ts:131-162 | as written: the truncation message, then the clearing on success |
| Camera.TruncationMessageLost | src/hooks/use-camera.ts:131-162 | as written, the truncation message is set and then cleared, so none is left |
| Camera.ErrorAfterUpload | src/hooks/use-camera.ts:131-133 | corrected: the truncation message shows exactly when not every chosen file could be taken |
| Camera.ImageList.constructor | src/hooks/use-camera.ts:31-42 | an empty list with no error; the bound is 10 images unless one is given |
| Camera.ImageList.CaptureImage | src/hooks/use-camera.ts:85-122 | refused with the list unchanged when the camera is not ready, the list is full or there is no context; otherwise appends the frame and clears the error, never exceeding the bound |
| Camera.ImageList.AddImagesFromFiles | src/hooks/use-camera.ts:125-169 | looks only at as many files as fit; appends the readable images in order and clears the error, or discards the batch with the processing error on a read failure; never exceeds the bound |
| Camera.ImageList.RemoveImage | src/hooks/use-camera.ts:172-175 | drops the image at the index, keeping the rest in order, and clears the error |
| Camera.ImageList.ClearAllImages | src/hooks/use-camera.ts:178-181 | empties the list and clears the error |
| Member.Split | src/routes/dashboard/member.tsx:176 | `split(" ")` gives at least one piece, and no piece contains a space |
| Member.JoinSplit | src/routes/dashboard/member.tsx:176 | joining the pieces with single spaces gives the name back |
| Member.SplitExtend | src/routes/dashboard/member.tsx:176 | appending text without spaces grows the last piece |
| Member.FirstChars | src/routes/dashboard/member.tsx:177-178 | at most one character per piece; an empty piece gives `undefined`, which joins as nothing |
| Member.Upper | src/routes/dashboard/member.tsx:179 | upper-cases character by character and keeps the length |
| Member.GetInitials | src/routes/dashboard/member.tsx:174-181 | at most two characters: the upper-cased first letters of the first pieces |
| Member.EmptyPieceAddsNothing | src/routes/dashboard/member.tsx:177-178 | leading, trailing or repeated spaces contribute nothing |
| Member.OneWordSplit | src/routes/dashboard/member.tsx:176 | a name without spaces is a single piece |
| Member.SingleWord | src/routes/dashboard/member.tsx:174-181 | a one-word name gives exactly its first letter, upper-cased |
| Member.TwoWords | src/routes/dashboard/member.tsx:174-181 | a two-word name gives the first letter of each word, in order |

## Left out

- The server side is not part of this model: the API handlers, the database engine, the approval
  engine and the invoice generator. Only the records' shapes and column defaults are modelled.
- Schema.NewPeriod: sets the balance of a new period to minus its total charged, the running
  balance formula the design documents, rather than the column default `'0'` of `schema.ts:238`.
  The code that creates periods on the server, which decides the stored value, is not part of
  this model.
- The browser side around the rules is left out: fetching, react-query caching and its
  invalidation, toasts, rendering, and the stepper component. Each handler receives the server's
  answer as a parameter.
- React scheduling is left out. Each `setState` is applied at once, in program order. The
  exception is the stale double update in the expense dialog, which is modelled as written.
- Number parsing: `Number` and `parseFloat` also accept signs, decimals, white space and
  exponents.
  - The model reads only digit texts: as `NaN` on the payment-method step, and as a typed `Entry`
    elsewhere.
  - Fractions of a rupiah and floating-point rounding are not modelled.
  - In the settle dialog, which divides amounts, percentages are reals.
- SettlePeriod.Percent: returns `None` when the prepaid amount is zero. The source divides by zero there
  and displays `NaN` or `Infinity`.
- `Intl.NumberFormat("id-ID")` is modelled as grouping the digits in threes with '.', an assumption
  about that locale. The other currency and date formats are display only.
- PaymentMethod.FormatAmount: takes only natural numbers. `formatCurrency` of a negative total
  is not modelled.
- Dates: parsing ISO texts, time zones and `toISOString` are left out. Instants are
  milliseconds, dates are triples, and "now" or "today" is a parameter.
- Camera: media I/O (`getUserMedia`, the video element, canvas drawing, `FileReader`) becomes
  parameters.
  - `startCamera`, `stopCamera` and the clean-up effect are left out.
  - The failure of `toDataURL` inside `captureImage` is left out.
  - Two uploads running at once, which both read the same `images.length`, are left out.
- Member.Upper: upper-cases ASCII letters only. The source's `toUpperCase` follows Unicode.
- Member.FirstChars: takes the first code point of each piece, where the source's `n[0]` takes the first UTF-16 code unit; the two differ only on a piece starting outside the Basic Multilingual Plane.
- Member.GetInitials: like Member.FirstChars, works on whole code points, since a Dafny `char` is a Unicode scalar value. The source's `n[0]` and `substring(0, 2)` take UTF-16 code units, so a word starting outside the Basic Multilingual Plane differs: for "😀 Budi" the source gives a lone high surrogate followed by "B", while the model gives "😀B".
- Optional fields that are `undefined` in the source are modelled as `false`, `Blank`, `[]` or `""`.
- The better-auth configuration (the database adapter, the session hooks, `setDefaultOrg`) is
  left out. Only the access-control statement and the roles are modelled, together with the
  two limits as constants.
- The patient and room steps of the wizard, and the invoice printing after a registration
  (`registration.tsx:49-86`), are left out: they are I/O.
- The approvals page's priority, request-type and subtype labels are left out as display only,
  and so is the list refetch after a decision.

## Findings

The handlers model the code as written; each corrected member states what was evidently intended.

| source | as written | input that shows it | evidently intended | confidence | as-written member | corrected member |
|---|---|---|---|---|---|---|
| src/routes/dashboard/patient.tsx:519 | the "Periode Baru" button is shown only for a period whose status is 'CLOSED' | a monthly contract whose period is SETTLED: no status the schema allows is 'CLOSED', so the button never appears | offer the next period once the current one has been settled | not executed | PatientDashboard.NewPeriodNeverShown | PatientDashboard.NewPeriodAfterSettle |
| src/routes/dashboard/registration.tsx:155 | the bank account is sent only when the method is 'BANK_TRANSFER' | method TRANSFER: the wizard's methods are CASH, TRANSFER and PAYLATER, so no account is ever sent | send the default account for TRANSFER | not executed | Registration.BankAccountNeverSent | Registration.BankAccountFor |
| src/components/patients/add-expense-dialog.tsx:199-201 | the success message reports `calculateTotal()`, which counts ticked custom lines without a description, but those lines are not submitted | nursing 100000 and a ticked custom line of 50000 with no description: reported 150000, recorded 100000 | report the total of the items recorded | not executed | AddExpense.ReportedTotalOvercounts | AddExpense.RecordedTotalMatchesItems |
| src/components/patients/add-expense-dialog.tsx:404-409 | the amount edit and the tick edit are both computed from the same list, so the second replaces the first | typing 25000 into an unticked custom line: the line is ticked but its amount stays empty | keep the typed amount and tick the line | not executed | AddExpense.TypedAmountLost | AddExpense.TypeCustomAmount |
| src/hooks/use-camera.ts:131-162 | the message for files left out is set before reading, then cleared by `setError(null)` once the reading succeeds | 12 image files chosen with 10 free slots: 10 are added and no message remains | keep the message that some files were left out | not executed | Camera.TruncationMessageLost | Camera.ErrorAfterUpload |
