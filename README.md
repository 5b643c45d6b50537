# Expense Tracker — a Dafny model of its core

This project models the logic of the Expense Tracker web application. The
application has a personal expense book and "split-smart" group expenses
that are settled between members. It also has an OTP e-mail verification
service and a handful of account modals.

The model covers:

- **the settlement engine** (`settleExpenses` in the Splitwise component),
  which works in place on arrays like the source. It computes every member's
  balance from the group ledger, splits the members into debtors and
  creditors with a 0.01 tolerance, sorts both lists, and walks them with two
  cursors to produce the payment plan. Also covered: the settle-up modal that
  feeds it, and the group page that loads, flattens, sorts and extends the
  ledger;
- **the OTP store of the backend**: generating a six-digit code, storing it
  for ten minutes with a cleanup timer, verifying it (expiry before code,
  single use), and the two HTTP routes over it. It is a class over a map
  with an explicit queue of pending timers, proved against pure transition
  functions;
- **the client views and forms**:
  - the personal expense page (load, add, delete, filter, total);
  - the all-expenses, analytics and monthly views (category totals through
    `reduce`, stable sorts, the six-month window, month navigation, daily
    grouping);
  - the add/edit expense modal;
  - the groups page (load, delete, search, add group);
  - the member-names modal;
  - the OTP entry modal (slots, paste, countdown, resend);
  - the settings modal (password change, account deletion);
  - the profile modal (image upload checks, storage path, phone pattern,
    saved row, display name);
  - the forgot-password modal (e-mail pattern, two steps);
  - the contact page (guards, submitted row, tab messages).

Money is an exact `real`. Each state-changing handler becomes a method of a
class whose fields are the component's state. The method's contract gives
the whole new state in terms of pure functions, and lemmas prove what those
functions promise. Network calls, storage and the clock become parameters
that stand for their outcome.

Months of a `Date` are numbered 0..11 as in JavaScript. Whitespace and case
follow ASCII.

## Model

| member | source | states |
|---|---|---|
| Splitwise.IndexOf | src/splitwise/Splitwise.jsx:64-66 | the payer's first position among the members, or -1 exactly when no member has that name (an undefined payer is never found) |
| Splitwise.ApplyPayment | src/splitwise/Splitwise.jsx:73-81 | the inner loop charges every member an equal share and credits the payer the whole amount, in place |
| Splitwise.ComputeBalances | src/splitwise/Splitwise.jsx:59-82 | the balance loop yields exactly the specified balances and one "Invalid payer" log line per non-member payer, in ledger order |
| Splitwise.Partition | src/splitwise/Splitwise.jsx:85-94 | debtors are the members below -0.01 and creditors those above 0.01, in member order |
| Splitwise.Update | src/splitwise/Splitwise.jsx:117-126 | one update of the pair under a cursor; the cursor advances exactly when the new balance is within the tolerance |
| Splitwise.SettleDebts | src/splitwise/Splitwise.jsx:100-127 | the two-cursor loop logs exactly the specified payments and takes at most one step per party |
| Splitwise.SettleExpenses | src/splitwise/Splitwise.jsx:55-130 | the whole settlement, in place, yields the specified log: invalid-payer errors, then payments |
| Splitwise.Render | src/splitwise/Splitwise.jsx:3-20 | "No members available." exactly for absent or empty members; "Invalid payment data" exactly for a missing column or columns of different lengths; otherwise the plan |
| Splitwise.MatchStep | src/splitwise/Splitwise.jsx:104-126 | every step moves a positive amount, neither balance crosses zero, and at least one of the two reaches zero, so a cursor advances |
| Splitwise.InvalidLogsExact | src/splitwise/Splitwise.jsx:66-71 | the error lines are exactly the non-member payers, in ledger order |
| Splitwise.BalanceClosedForm | src/splitwise/Splitwise.jsx:62-82 | each balance is what the member paid on valid entries minus an equal share of all valid spending |
| Splitwise.BalancesConserved | src/splitwise/Splitwise.jsx:62-82 | the balances always sum to zero |
| Splitwise.PartitionExact | src/splitwise/Splitwise.jsx:88-94 | a party is a debtor iff its balance is below -0.01 and a creditor iff above 0.01; never both, and a member within the tolerance is in neither list |
| Splitwise.OrderedForMatching | src/splitwise/Splitwise.jsx:97-98 | the sorted debtors run from most negative up and the creditors from most positive down, and both are permutations of the partition |
| Splitwise.MatchPays | src/splitwise/Splitwise.jsx:108-114 | every logged payment exceeds 0.01 and goes from a debtor to a creditor |
| Splitwise.MatchLength | src/splitwise/Splitwise.jsx:100-127 | no payments when either list is empty; otherwise at most \|debtors\| + \|creditors\| - 1 lines |
| Splitwise.MatchWithinBalances | src/splitwise/Splitwise.jsx:108-118 | the payments never exceed what the debtors owe in total, nor what the creditors are owed in total |
| Splitwise.SettleShape | src/splitwise/Splitwise.jsx:55-130 | the log is the invalid-payer lines followed by payments between disjoint sets of debtors and creditors |
| Splitwise.NoSelfPayment | src/splitwise/Splitwise.jsx:108-114 | with distinct member names, nobody is asked to pay themselves |
| Splitwise.SettledNeedsNoPayments | src/splitwise/Splitwise.jsx:88-94 | when every balance is within the tolerance, only the invalid-payer errors are logged |
| Splitwise.TwoMemberExample | src/splitwise/Splitwise.jsx:55-130 | Alice paying 100 for two gives "Bob pays Alice 50" |
| Splitwise.ThreeMemberExample | src/splitwise/Splitwise.jsx:55-130 | a three-member ledger settles with Carol paying both creditors |
| Splitwise.InvalidPayerExample | src/splitwise/Splitwise.jsx:66-71 | a payer outside the group is reported and that entry is ignored |
| Sorting.SortDescPermutes | src/splitwise/Splitwise.jsx:97-98 | the stable sort used for every `Array.sort` returns a permutation of its input |
| Sorting.SortDescSorted | src/splitwise/Splitwise.jsx:97-98 | the stable sort's keys never increase |
| Sorting.InsertDescStable | src/splitwise/Splitwise.jsx:97-98 | inserting an element puts it in front of every element with the same key and keeps the order of the others |
| Sorting.SortDescStable | src/splitwise/Splitwise.jsx:97-98 | the sort is stable: for every key, the elements with that key appear in the sorted list in their input order |
| Sorting.SortDescHead | src/components/expense/AnalyticsView.jsx:85-87 | the head of a sorted non-empty list is one of its elements with the largest key |
| SettleUp.Project | src/modals/SettleUpModal.jsx:5-11 | the `forEach` pushes each record's payer and amount, in ledger order |
| SettleUp.SettleUpView | src/modals/SettleUpModal.jsx:21 | the modal never shows invalid payment data, shows no members exactly for an empty group, and otherwise shows the engine's plan |
| SettleUp.ColumnsHaveAmounts | src/modals/SettleUpModal.jsx:5-11 | well-formed records give the engine an amount wherever the payer is a member |
| SettleUp.MissingPayerReported | src/modals/SettleUpModal.jsx:8-11 | a record without a payer shows up as an invalid-payer error |
| SettleUp.NewBucketReportedInvalid | src/modals/AddExpenseModal.jsx:39-44 | an item added on a new date creates a bucket without a payer, which the plan reports as invalid |
| GroupLedger.DateIndex | src/modals/AddExpenseModal.jsx:29-31 | the first record with the date, or -1 exactly when none has it |
| GroupLedger.FindDate | src/modals/AddExpenseModal.jsx:29-31 | the `findIndex` loop finds the first record with the date |
| GroupLedger.AddItemExistingDate | src/modals/AddExpenseModal.jsx:33-38 | an existing date gains the item at the end of its items and every other record is untouched |
| GroupLedger.AddItemNewDate | src/modals/AddExpenseModal.jsx:39-44 | a new date appends one bucket holding just the item |
| GroupLedger.AddItemStores | src/modals/AddExpenseModal.jsx:28-43 | after an add, some record with that date holds the item |
| GroupLedger.AddItemKeepsDatesDistinct | src/modals/AddExpenseModal.jsx:28-43 | adding never gives two records the same date |
| GroupLedger.AddItemWellFormed | src/modals/AddExpenseModal.jsx:39-44 | adding keeps every record well formed |
| GroupExpense.Flatten | src/pages/GroupExpense.jsx:52-76 | the nested `for…in` loops push exactly the specified records |
| GroupExpense.FlattenedSound | src/pages/GroupExpense.jsx:57-70 | every record is a complete expense whose date is a key holding an object |
| GroupExpense.FlattenedComplete | src/pages/GroupExpense.jsx:57-70 | every complete expense child of an object-valued date yields its record |
| GroupExpense.FlattenedWellFormed | src/pages/GroupExpense.jsx:66-71 | flattened records are well formed, so they can feed the settlement |
| GroupExpense.SortedExpensesSpec | src/pages/GroupExpense.jsx:117-123 | the shown list holds exactly the dated records, as often as listed, newest first |
| GroupExpense.GroupExpensePage.constructor | src/pages/GroupExpense.jsx:10-24 | the page starts loading with an empty ledger and a closed modal |
| GroupExpense.GroupExpensePage.Load | src/pages/GroupExpense.jsx:26-91 | no token keeps loading on; a failed request keeps the list; null data empties it; data replaces it by the flattened records and disables adding members when names are known |
| GroupExpense.GroupExpensePage.HandleAddExpense | src/modals/AddExpenseModal.jsx:20-69 | an incomplete form changes nothing; otherwise the item joins its date bucket, the fields clear, the modal closes and the item is posted |
| GroupExpense.GroupExpensePage.NamesSaved | src/pages/GroupExpense.jsx:225 | saving the names disables the add-members button |
| Groups.CollectGroups | src/pages/Groups.jsx:33-43 | the nested loops push exactly the specified group entries |
| Groups.GroupsOfExact | src/pages/Groups.jsx:35-43 | an entry is listed exactly when some child of its group key has a defined `members` field with that value |
| Groups.WithoutGroupSpec | src/pages/Groups.jsx:72-74 | deleting removes every group with that name, keeps the others and their order |
| Groups.FilteredGroupsSpec | src/pages/Groups.jsx:80-82 | a group is shown exactly when its lower-cased name contains the lower-cased search term, in list order |
| Groups.EmptySearchShowsAll | src/pages/Groups.jsx:80-82 | an empty search shows every group |
| Groups.GroupsPage.constructor | src/pages/Groups.jsx:6-9 | no groups, a closed form and an empty search |
| Groups.GroupsPage.Load | src/pages/Groups.jsx:13-51 | loaded data replaces the list by its entries; a missing token or failed request keeps it |
| Groups.GroupsPage.DeleteGroup | src/pages/Groups.jsx:53-78 | only a completed delete removes the groups with that name |
| Groups.GroupsPage.HandleAddGroup | src/modals/AddGroupModal.jsx:6-47 | invalid details alert and change nothing; a completed post appends the group, resets the form and closes it |
| AddGroup.AcceptedIff | src/modals/AddGroupModal.jsx:7 | a group is accepted exactly when its name has a non-space character and a positive member count was typed |
| Common.EmptyStrings | src/modals/AddNamesModal.jsx:9 | `n` empty strings, as `Array(n).fill("")` builds them for the name slots and the six OTP slots |
| AddNames.InitialNamesSpec | src/modals/AddNamesModal.jsx:9 | `Array(members)` succeeds exactly for a whole count from 0 below 2^32, giving one empty slot per member; any other count throws |
| AddNames.FractionalCountThrows | src/modals/AddGroupModal.jsx:7 | the add-group form accepts 2.5 members, and opening the add-names modal for such a group throws |
| AddNames.EmptyNamesComplete | src/modals/AddNamesModal.jsx:43-44 | a fresh list of empty names is complete only for a group without members |
| AddNames.FillLastCompletes | src/modals/AddNamesModal.jsx:12-16 | filling the last empty slot completes the list |
| AddNames.NamesModal.constructor | src/modals/AddNamesModal.jsx:9 | the list starts with one empty slot per member, the same list `Array(members).fill("")` gives for that count |
| AddNames.NamesModal.HandleInputChange | src/modals/AddNamesModal.jsx:12-16 | only slot `index` changes; spreading a keyed object throws and changes nothing |
| AddNames.PostNames | src/modals/AddNamesModal.jsx:57-63 | a POST adds the posted value as the newest push-keyed entry of the stored names |
| AddNames.ReadBack | src/modals/AddNamesModal.jsx:39-45 | stored entries come back as the keyed object (not a list); empty slots come back exactly when nothing is stored |
| AddNames.ReadBackAfterPost | src/modals/AddNamesModal.jsx:39-63 | after any save, reading the group back yields the keyed object whose newest entry is the posted value |
| AddNames.NamesModal.Reload | src/modals/AddNamesModal.jsx:39-45 | the read-back value replaces the list; a failed read keeps it |
| AddNames.NamesModal.HandleEnter | src/modals/AddNamesModal.jsx:53-76 | the names are posted whatever they hold; with slots, navigation and closing happen exactly when every name is filled and an alert otherwise; with a keyed object `every` throws, so neither happens |
| Otp.CodeNumber | backend/server.js:41-42 | every draw in [0, 1) gives a number between 100000 and 999999 |
| Otp.DecimalRoundTrip | backend/server.js:42 | `toString` of a natural number reads back as that number and uses only digits |
| Otp.GenerateOtpShape | backend/server.js:41-43 | every code is six decimal digits with no leading zero |
| Otp.StoreCodeSpec | backend/server.js:48-51 | storing overwrites the address's code with a ten-minute expiry and leaves other addresses alone |
| Otp.VerifyMissing | backend/server.js:67-69 | an address without a code is "not found" and nothing changes |
| Otp.VerifyExpiry | backend/server.js:71-74 | expiry is checked before the code; a late attempt removes the entry; the expiry instant itself is still valid |
| Otp.VerifyWrongCodeKeeps | backend/server.js:76-78 | a wrong code keeps the entry, so a retry is possible |
| Otp.VerifyNoReplay | backend/server.js:80-82 | a successful verification consumes the code |
| Otp.VerifyAfterStore | backend/server.js:48-83 | right after storing, verification succeeds exactly with that code within ten minutes |
| Otp.CleanupKeepsNewerCode | backend/server.js:53-58 | the timer of an older code does not remove a newer, different code |
| Otp.CleanupRemovesEqualNewerCode | backend/server.js:53-58 | a re-sent code equal to the older one is removed by the older timer while it would still verify |
| Otp.CleanupRemovesOwnCode | backend/server.js:53-58 | the timer of the current code removes just that entry |
| Otp.OtpStore.constructor | backend/server.js:15 | an empty store with no pending timers |
| Otp.OtpStore.StoreOtp | backend/server.js:48-59 | sets the entry and schedules its cleanup, due ten minutes later |
| Otp.OtpStore.VerifyStoredOtp | backend/server.js:64-83 | verdict and new store as the transition function gives them |
| Otp.OtpStore.FireTimer | backend/server.js:53-58 | the oldest timer runs its cleanup, no earlier than its due time |
| Otp.OtpStore.SendOtp | backend/server.js:195-233 | a missing address or name answers 400 and changes nothing; otherwise a fresh code is stored, and it stays stored even when the mail fails with 500 |
| Otp.OtpStore.VerifyOtp | backend/server.js:239-269 | a missing address or code answers 400; otherwise the verdict decides between 400 with its error text and 200 |
| OtpEntry.CompleteIff | src/modals/OTPVerificationModal.jsx:73-75 | the joined code has six characters exactly when every slot holds one digit |
| OtpEntry.PastedSlotsSpec | src/modals/OTPVerificationModal.jsx:63 | pasted digits fill the slots in order and the rest are empty |
| OtpEntry.CountdownUnlocks | src/modals/OTPVerificationModal.jsx:16-25 | while open, the timer drops by one per tick, and resend unlocks one tick after it reaches zero |
| OtpEntry.ZeroStays | src/modals/OTPVerificationModal.jsx:22-24 | once unlocked at zero, the countdown stays there |
| OtpEntry.ClosedHolds | src/modals/OTPVerificationModal.jsx:17 | a closed modal does not count down |
| OtpEntry.OtpModal.constructor | src/modals/OTPVerificationModal.jsx:11-14 | empty slots, a 60-second timer and resend locked |
| OtpEntry.OtpModal.HandleChange | src/modals/OTPVerificationModal.jsx:27-45 | a longer input is cut to one character, a non-digit is ignored, otherwise only that slot changes |
| OtpEntry.OtpModal.HandlePaste | src/modals/OTPVerificationModal.jsx:54-70 | the first six pasted characters fill the slots when they are digits; anything else is rejected unchanged |
| OtpEntry.OtpModal.HandleVerify | src/modals/OTPVerificationModal.jsx:72-88 | the code is submitted exactly when all six slots are filled |
| OtpEntry.OtpModal.CountDown | src/modals/OTPVerificationModal.jsx:16-25 | one tick of the countdown effect |
| OtpEntry.OtpModal.HandleResend | src/modals/OTPVerificationModal.jsx:90-103 | nothing happens while locked; a successful resend restarts the timer at 60, locks resend and empties the slots |
| PersonalExpense.LoadedRecordsSpec | src/pages/PersonalExpense.jsx:28-33 | every loaded record carries its key as id; the groups key is excluded and every other entry is listed |
| PersonalExpense.WithoutSpec | src/pages/PersonalExpense.jsx:125 | deleting removes every record with the id and keeps the others in order |
| PersonalExpense.DeleteUnsavedDropsAllUnsaved | src/pages/PersonalExpense.jsx:101-111 | deleting a record added this session (no id) removes every record added this session |
| PersonalExpense.FilteredRecordsSpec | src/pages/PersonalExpense.jsx:131-138 | no filter shows all records, a filter exactly its category; the total counts exactly the shown records |
| PersonalExpense.AppendedShown | src/pages/PersonalExpense.jsx:101-111 | an appended record appears at the end of the filtered list when it matches the filter |
| PersonalExpense.PersonalExpensePage.constructor | src/pages/PersonalExpense.jsx:3-10 | an empty list, an empty form and no filter |
| PersonalExpense.PersonalExpensePage.Load | src/pages/PersonalExpense.jsx:12-43 | a snapshot replaces the list; a failed or null read keeps it |
| PersonalExpense.PersonalExpensePage.HandleSubmit | src/pages/PersonalExpense.jsx:101-111 | a complete form is appended without id and cleared; an incomplete one changes nothing |
| PersonalExpense.PersonalExpensePage.AddExpense | src/pages/PersonalExpense.jsx:63-99 | only a complete form is posted, and only an accepted post runs the submit |
| PersonalExpense.PersonalExpensePage.HandleDelete | src/pages/PersonalExpense.jsx:113-129 | after the delete settles, every record with the id is removed |
| AllExpensesView.FilteredExpensesSpec | src/components/expense/AllExpensesView.jsx:29-31 | no filter shows everything; a filter shows exactly that category, in order |
| AllExpensesView.TotalFilteredSpec | src/components/expense/AllExpensesView.jsx:33-36 | the total counts each shown expense once and nothing else |
| AllExpensesView.CountLabelSpec | src/components/expense/AllExpensesView.jsx:64 | the singular is used exactly for one expense |
| Grouping.GroupBy | src/components/expense/MonthlyView.jsx:61-68 | the grouping `reduce` yields exactly the specified groups |
| Grouping.GroupKeys | src/components/expense/MonthlyView.jsx:61-68 | each key appears once and every element's key has a group |
| Grouping.GroupContents | src/components/expense/MonthlyView.jsx:61-68 | a key's group holds exactly the elements with that key, in input order, and is never empty |
| Grouping.GroupSum | src/components/expense/MonthlyView.jsx:61-68 | summing group by group gives the sum over the list |
| Grouping.TallyBy | src/components/expense/AnalyticsView.jsx:30-37 | the total-and-count `reduce` yields exactly the specified tallies |
| Grouping.SumBy | src/components/expense/MonthlyView.jsx:52-58 | the per-key total `reduce` yields exactly the specified totals |
| Grouping.TotalsSum | src/components/expense/MonthlyView.jsx:52-58 | the per-key totals add up to the sum over the list |
| AnalyticsView.CategoryTotalsSpec | src/components/expense/AnalyticsView.jsx:30-39 | each category appears once with its sum and count; counts add up to the number of expenses and totals to the overall total |
| AnalyticsView.SortedCategoriesSpec | src/components/expense/AnalyticsView.jsx:40 | the sorted categories are a permutation of the totals, largest first |
| AnalyticsView.WindowSpec | src/components/expense/AnalyticsView.jsx:44-47 | the window is six consecutive months, oldest first, ending with the current one |
| AnalyticsView.LastSixMonths | src/components/expense/AnalyticsView.jsx:43-53 | the loop builds six empty buckets for the window |
| AnalyticsView.FindMonth | src/components/expense/AnalyticsView.jsx:57-60 | the first bucket with the date's month and year, or -1 exactly when none matches |
| AnalyticsView.MonthlyBuckets | src/components/expense/AnalyticsView.jsx:55-65 | each bucket holds the sum and count of the expenses dated in its month |
| AnalyticsView.MaxMonthly | src/components/expense/AnalyticsView.jsx:67 | at least 1 and every bucket total, and equal to 1 or to one of them |
| AnalyticsView.AverageSpec | src/components/expense/AnalyticsView.jsx:70 | the average times the count is the total; 0 without expenses |
| AnalyticsView.MonthTotalsMatchBuckets | src/components/expense/AnalyticsView.jsx:71-82 | this month's and last month's totals are the last two buckets of the chart |
| AnalyticsView.MonthlyChangeSpec | src/components/expense/AnalyticsView.jsx:83 | 0 without a positive total last month; otherwise the sign of the difference, and never below -100% |
| AnalyticsView.TotalsAddUp | src/components/expense/AnalyticsView.jsx:30-39 | the category totals add up to the overall total |
| AnalyticsView.CategoryOfSomeExpense | src/components/expense/AnalyticsView.jsx:30-37 | every listed category belongs to some expense |
| AnalyticsView.TotalsNonNegative | src/components/expense/AnalyticsView.jsx:30-37 | with no negative amounts, no category total is negative |
| AnalyticsView.SortedHead | src/components/expense/AnalyticsView.jsx:85 | the first sorted entry is one of the category totals and none is larger |
| AnalyticsView.TopCategorySpec | src/components/expense/AnalyticsView.jsx:85-87 | "N/A" with 0 without expenses; otherwise a category of some expense with the largest total |
| AnalyticsView.TopPercentage | src/components/expense/AnalyticsView.jsx:88 | for any amounts, 0 when the total is not positive; otherwise the percentage times the total is 100 times the top amount |
| AnalyticsView.TopPercentageSpec | src/components/expense/AnalyticsView.jsx:88 | with no negative amounts and a positive total, the top category's share is between 0 and 100 |
| Expenses.MonthStart | src/components/expense/AnalyticsView.jsx:46 | `new Date(year, month, 1)` gives a normal date on day 1 |
| Expenses.MonthStartSpec | src/components/expense/AnalyticsView.jsx:46 | month indexes outside 0..11 roll over into neighbouring years while keeping the month count |
| Expenses.MonthExpensesSpec | src/components/expense/MonthlyView.jsx:42-49 | a month's expenses are exactly those dated in it, and the sum counts each of them once |
| Expenses.MonthStep | src/components/expense/AnalyticsView.jsx:55-65 | one expense more adds its amount and one to its month only |
| Expenses.DayNumberOrder | src/components/expense/MonthlyView.jsx:70 | later dates have larger day numbers |
| Expenses.CategoryFilterSpec | src/components/expense/AllExpensesView.jsx:29-31 | an empty filter keeps everything; otherwise exactly that category, in order |
| Expenses.CategoryFilterSum | src/components/expense/AllExpensesView.jsx:33-36 | the filtered sum is the full sum with other categories counted as 0 |
| MonthlyView.NavigationSpec | src/components/expense/MonthlyView.jsx:29-35 | previous and next month roll over the year, and each undoes the other |
| MonthlyView.CategoryTotalsSpec | src/components/expense/MonthlyView.jsx:52-58 | each category of the month appears once with its sum, and the totals add up to the month total |
| MonthlyView.DailyExpensesSpec | src/components/expense/MonthlyView.jsx:61-68 | each date of the month has one group holding exactly its expenses, in order |
| MonthlyView.SortedDatesSpec | src/components/expense/MonthlyView.jsx:70 | the sorted dates are the day keys, latest first |
| MonthlyView.MonthlyPage.constructor | src/components/expense/MonthlyView.jsx:5 | the view opens on the current month |
| MonthlyView.MonthlyPage.GoToPreviousMonth | src/components/expense/MonthlyView.jsx:29-31 | moves to day 1 of the previous month |
| MonthlyView.MonthlyPage.GoToNextMonth | src/components/expense/MonthlyView.jsx:33-35 | moves to day 1 of the next month |
| MonthlyView.MonthlyPage.GoToCurrentMonth | src/components/expense/MonthlyView.jsx:37-39 | back to today, which is then the current month |
| ExpenseForm.InitialFormSpec | src/components/expense/AddExpenseModal.jsx:25-43 | editing copies the expense; a new form is empty with today's date (the ISO text before 'T') |
| ExpenseForm.ProblemSpec | src/components/expense/AddExpenseModal.jsx:55-63 | a form passes exactly when complete with an amount that is not at most 0; a missing field is reported first |
| ExpenseForm.ExpenseModal.constructor | src/components/expense/AddExpenseModal.jsx:25-43 | the form is set up from the expense being edited |
| ExpenseForm.ExpenseModal.HandleSubmit | src/components/expense/AddExpenseModal.jsx:50-77 | a refused form changes nothing; otherwise the form goes to the caller with the id when editing |
| Settings.PasswordProblemSpec | src/modals/SettingsModal.jsx:41-59 | a change passes exactly when all fields are filled, the new password has 6 characters, matches and differs; each failure is reported in order |
| Settings.SettingsModal.constructor | src/modals/SettingsModal.jsx:8-24 | cleared fields and nothing loading |
| Settings.SettingsModal.HandlePasswordChange | src/modals/SettingsModal.jsx:38-100 | a failed check calls nothing; otherwise the auth outcome decides the message and only success clears the fields |
| Settings.SettingsModal.HandleDeleteAccount | src/modals/SettingsModal.jsx:102-149 | deletion proceeds exactly when the confirmation is "DELETE", else only the 'Please type "DELETE" to confirm' toast; on completion the success toast, sign-out and redirect to "/"; a throw before the toast gives only "Failed to delete account", a failed sign-out both toasts and no redirect; loading is off at the end |
| Settings.SettingsModal.GoBack | src/modals/SettingsModal.jsx:399-402 | hides the warning and clears the confirmation |
| Profile.UploadProblemSpec | src/modals/ProfileModal.jsx:57-66 | an upload passes exactly when it is an image of at most 5242880 bytes; the type is checked first |
| Profile.ExtensionSpec | src/modals/ProfileModal.jsx:72 | the extension is the text after the last '.', or the whole name without one |
| Profile.StoragePathSpec | src/modals/ProfileModal.jsx:72-74 | the path is under "profile-images/", named after the user, and keeps the file's extension |
| Profile.ValidPhoneSpec | src/modals/ProfileModal.jsx:119 | a phone is valid exactly when it is non-empty, not just "+", and made of digits, whitespace, '-', '(' and ')' after an optional '+' |
| Profile.SubmitProblemSpec | src/modals/ProfileModal.jsx:113-122 | a form passes exactly when the name is not blank and the phone is empty or valid; a blank name is reported first |
| Profile.SavedSpec | src/modals/ProfileModal.jsx:126-135 | the saved name and phone are trimmed, a passed form saves a non-empty name, a blank phone and an empty image are saved as null |
| Profile.DisplayNameSpec | src/modals/ProfileModal.jsx:174-175 | the display name is never empty: the full name, else the e-mail before '@', else "User"; the avatar letter is its first character upper-cased |
| Profile.ProfileModal.constructor | src/modals/ProfileModal.jsx:7-15 | the form as given, nothing loading |
| Profile.ProfileModal.HandleImageUpload | src/modals/ProfileModal.jsx:52-108 | no file does nothing; a failed check reports and changes nothing; otherwise the file goes to its storage path and the image becomes the public URL, or the data URL on failure |
| Profile.ProfileModal.HandleSubmit | src/modals/ProfileModal.jsx:110-165 | a failed check saves nothing; otherwise the row built from the form is written and the outcome decides the message |
| ForgotPassword.EmailMatchesIff | src/modals/ForgotPasswordModal.jsx:20 | the e-mail pattern accepts exactly the strings with no whitespace, one '@' with text before it, and an inner '.' after it |
| ForgotPassword.EmailMatchesNeedsText | src/modals/ForgotPasswordModal.jsx:14-21 | the empty string and any string with whitespace never match |
| ForgotPassword.ForgotPasswordModal.constructor | src/modals/ForgotPasswordModal.jsx:6-9 | step 1 with an empty e-mail |
| ForgotPassword.ForgotPasswordModal.HandleSendResetEmail | src/modals/ForgotPasswordModal.jsx:11-43 | an empty or malformed e-mail is reported without a request; the link is requested exactly when the pattern matches, and success moves to step 2 |
| ForgotPassword.ForgotPasswordModal.HandleClose | src/modals/ForgotPasswordModal.jsx:45-49 | clears the e-mail and returns to step 1 |
| ForgotPassword.ForgotPasswordModal.TryAnotherEmail | src/modals/ForgotPasswordModal.jsx:175 | back to step 1 with the e-mail kept |
| ContactUs.TabNameInjective | src/pages/ContactUs.jsx:55 | different tabs are stored under different contact types |
| ContactUs.CheckSpec | src/pages/ContactUs.jsx:30-45 | feedback without a user is refused first; subject and message are always required, the e-mail only off the feedback tab; a form passes exactly when none applies |
| ContactUs.BuildSpec | src/pages/ContactUs.jsx:50-59 | the submitted name, e-mail, type, phone and company follow the fallbacks of the source |
| ContactUs.PassedHasContact | src/pages/ContactUs.jsx:30-45 | a support or business request that passed carries the typed e-mail; a passed feedback comes from a signed-in user |
| ContactUs.ContactPage.constructor | src/pages/ContactUs.jsx:7-19 | the feedback tab with an empty form |
| ContactUs.ContactPage.SelectTab | src/pages/ContactUs.jsx:148-170 | a tab button changes the tab and keeps the form |
| ContactUs.ContactPage.HandleSubmit | src/pages/ContactUs.jsx:26-91 | refused or incomplete forms send nothing; otherwise the built row is sent, success shows the tab's message and clears the form, failure keeps it |
| Text.TrimIdempotent | src/modals/ProfileModal.jsx:113 | trimming twice changes nothing, and a non-empty trimmed string has no whitespace at either end |
| Text.TrimEmpty | src/modals/AddGroupModal.jsx:7 | a string trims to empty exactly when it is all whitespace |
| Text.ContainsIff | src/pages/Groups.jsx:80-82 | `includes` holds exactly when the term occurs at some position |
| Text.ToLowerIdempotent | src/pages/Groups.jsx:80-82 | lower-casing twice changes nothing |
| Text.BeforeFirst | src/pages/ContactUs.jsx:51 | `split(c)[0]` is the prefix before the first `c`, which holds no `c` |
| Text.AfterLast | src/modals/ProfileModal.jsx:72 | `split(c).pop()` is the suffix after the last `c`, which holds no `c` |

## Left out

- Network, Firebase and Supabase calls: each becomes a parameter standing for its outcome (answered, failed, no token). Request URLs, headers and bodies are not modelled beyond the posted value. One consequence is not visible in the model: the group page reads and writes one database (src/pages/GroupExpense.jsx:38 and :102) while the group add-expense modal posts to another (src/modals/AddExpenseModal.jsx:58), so the group page never reloads what that modal saved.
- `localStorage`, `navigate`, `alert`, toasts and `console` output: only the message or redirect each handler produces is modelled.
- Timers: the OTP cleanup timers are a FIFO queue of due times (all delays are equal), and a timer fires at a caller-given time no earlier than its due time; the countdown effect is one tick per call. The reload and close timeouts after a password or profile change are not part of this model.
- Clock and randomness: `Date.now()`, `new Date()`, `Math.random()` and the random file-name token are parameters.
- Date parsing and time zones: `new Date(text)` is a parameter `dateOf` or `time` supplied by the caller; dates are `(year, month 0..11, day)`.
- Floating point: money is an exact `real`. NaN, `parseFloat` of arbitrary text and `toFixed(2)` formatting are left out. An amount that does not parse is `None`.
- Splitwise.SettleExpenses: the code does not settle every balance. Members within 0.01 of zero are dropped before matching, so a debtor can be left over. `MatchWithinBalances` states what is guaranteed instead.
- Splitwise.ComputeBalances: requires an amount wherever the payer is a member; an `undefined` amount would make every balance NaN.
- Splitwise.Render: members are a non-empty sequence of names; the non-integer and non-array inputs JavaScript would accept are left out.
- AnalyticsView.CategoryTotalsSpec: categories come out in first-seen order; JavaScript lists integer-like object keys first, which is not modelled.
- MonthlyView.DailyExpensesSpec: the same first-seen key order applies to date keys.
- GroupExpense.GroupExpensePage.HandleAddExpense: the source pushes into a bucket that is shared with the previous state array (aliasing); the model builds a new list. The refetch that the effect runs when `date` changes is not modelled.
- Regular expressions are written as predicates (`/^\d*$/`, `/^\d+$/`, the phone and e-mail patterns). Whitespace is ASCII whitespace, while JavaScript's `\s` and `trim` also cover Unicode spaces.
- Text.ToLower: ASCII case only; `toLowerCase`/`toUpperCase` are Unicode in JavaScript. String lengths count characters, not UTF-16 code units.
- The OTP entry modal's focus moves between inputs and its key-down handler (focus only) are DOM effects and are left out.
- Profile.ProfileModal.HandleImageUpload: the data-URL fallback is set from a `FileReader` callback that captures a stale form; the model applies it directly. `fetchProfile`, `handleChange` setters and logout are not part of this model.
- ContactUs.ContactPage.HandleSubmit: the default "Message sent successfully!" cannot be reached with the three tabs and is left out. The HTML `required` attributes of the form fields are browser checks outside the handler. The login redirect is given as the path "/login".
- The e-mail body of the OTP service (HTML template) and the health route are left out.
- AddNames.NamesModal.constructor: takes the member count as a natural number and does not throw for one of 2^32 or more. A count for which `Array(members)` throws (fractional, negative or too large) never yields an open modal; that case is `AddNames.InitialNames`, and `AddNames.FractionalCountThrows` shows the add-group form lets a fractional count through.
- Rendering a keyed `memberNames` object (`memberNames.map`) throws as well; the model keeps the object in state and shows what the handlers do with it, not the failed render.
- `onClose`/`onSaveSuccess` callbacks of the modals are modelled only as flags where they change state.
