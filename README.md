# ToDoApp_AI — a verified model of the view-model layer

ToDoApp_AI is an iOS to-do list app. Items live in Firestore under
`users/<uid>/todos`; without a signed-in user they live in a local list. The app also has
a daily "tasks due today" notification and an AI chat that turns an OpenAI reply into
step-by-step messages, any of which can become a new to-do. Paid credit packs top up the
user's AI message quota.

This project models, in Dafny, the logic of the app's view-models and services:

- **Items** (`todo_item.dfy`): the `ToDoListItem` record, `setDone`, and its Firestore document.
- **To-do list** (`todo_list.dfy`): `delete`, `toggleIsDone` and `addItem`, each over the
  remote collection or the local list depending on `userId`; the expiry sweep; and the
  count behind the daily notification.
- **One row** (`todo_item_status.dfy`): the optimistic toggle, which writes, reverts on
  failure and broadcasts on success, plus the "status changed" handler that every live
  row runs.
- **Notifications** (`notification_manager.dfy`): the two requests that share the
  `dailyTodoReminder` slot.
- **New item, login, registration, profile** (`new_item.dfy`, `login.dfy`, `register.dfy`,
  `profile.dfy`, `user.dfy`):
  - form validation, with the e-mail pattern written out character by character
  - the mapping from Firebase errors to messages
  - the 60-second limit on re-sending the verification e-mail
  - decoding a user document with defaults
- **AI chat** (`ai_view_model.dfy`, `message_bubble.dfy`, `ai_service.dfy`):
  - splitting a reply into trimmed, non-empty messages
  - removing the "Adım N: " step markers
  - the service's ladder of fallback answers
  - the prompt template
- **Configuration** (`environment.dfy`): the `.env` line parser, with precedence `.env`,
  then the process environment, then Info.plist.
- **Credits** (`store_manager.dfy`): the product-to-credits mapping and the purchase-outcome
  handling. The session's `purchasedCredits` stays in step with the quota in the database.

`text.dfy` holds the Foundation string operations these rely on:
- `trimmingCharacters(in:)`
- `components(separatedBy:)`
- `split(separator:)`
- `contains`
- `replacingOccurrences(of:with: "")`
- `lowercased()`
- decimal rendering

`firestore.dfy` models the database as a `Database` object holding the per-user `todos`
collections and the `users` documents.

How the model is built:
- **Classes.** Objects whose fields the app updates in place (the view-models, the
  notification center, the database) are classes. Their methods state the whole new state.
- **Values.** Records and pure logic are datatypes and functions, with lemmas for the
  properties that relate several calls.
- **Asynchronous callbacks.** Each Firebase, StoreKit or network callback is a separate
  method, such as `CompleteToggle`, `CompleteFetch`, `CompleteLogIn` or `ReceiveResponse`.
  It takes the callback's outcome as a parameter.
- **Time.** Time is whole seconds. "Same calendar day" is a `dayOf` function passed in.

## Model

| member | source | states |
|---|---|---|
| ToDoItem.ToDoListItem.SetDone | ToDoApp/Models/ToDoListItem.swift:18-20 | the result's `isDone` is the argument and id, title, description, dueDate and createdDate are those of the original |
| ToDoItem.SetDoneIdempotent | ToDoApp/Models/ToDoListItem.swift:18-20 | `setDone(s)` applied twice equals applying it once |
| ToDoItem.ToggleTwiceRestores | ToDoApp/Models/ToDoListItem.swift:18-20 | `setDone(!isDone)` applied twice gives back the original record |
| ToDoItem.AsDictionary | ToDoApp/Models/ToDoListItem.swift:10-16 | the Firestore document of an item has exactly the keys id, title, dueDate, createdDate, isDone, plus description when there is one, each holding that field |
| ToDoItem.DictionaryRoundTrip | ToDoApp/Models/ToDoListItem.swift:10-16 | decoding an item's document gives the item back |
| ToDoItem.FromDictionary | ToDoApp/Models/ToDoListItem.swift:10-16 | a document decodes only when it holds every key of the decoded item's own document, with the same values |
| ToDoList.WithoutId | ToDoApp/ViewModels/ToDoListViewViewModel.swift:42-44 | local delete keeps exactly the items whose id differs, and never lengthens the list |
| ToDoList.WithoutIdConcat | ToDoApp/ViewModels/ToDoListViewViewModel.swift:43 | removal works piecewise over a concatenation, so survivors keep their relative order |
| ToDoList.WithoutAbsentId | ToDoApp/ViewModels/ToDoListViewViewModel.swift:42-44 | deleting an id no item has leaves the list unchanged |
| ToDoList.WithoutIdIdempotent | ToDoApp/ViewModels/ToDoListViewViewModel.swift:42-44 | deleting twice equals deleting once |
| ToDoList.WithoutIds | ToDoApp/ViewModels/ToDoListViewViewModel.swift:126-131 | removing a set of ids keeps exactly the items whose id is outside the set |
| ToDoList.WithoutIdsStep | ToDoApp/ViewModels/ToDoListViewViewModel.swift:126-131 | deleting one more id after a set of ids equals removing the enlarged set |
| ToDoList.FirstIndexOfId | ToDoApp/ViewModels/ToDoListViewViewModel.swift:62 | `firstIndex(where:)`: the index found holds the id and no earlier item does; none is found exactly when no item has the id |
| ToDoList.ReplaceFirstAt | ToDoApp/ViewModels/ToDoListViewViewModel.swift:62-63 | the toggled copy replaces the item at the first index with that id, and only it |
| ToDoList.ReplaceFirstAbsent | ToDoApp/ViewModels/ToDoListViewViewModel.swift:62-65 | with no item of that id the list is left as it was |
| ToDoList.QueryDueBefore | ToDoApp/ViewModels/ToDoListViewViewModel.swift:119 | the query returns exactly the documents whose numeric dueDate is before the cutoff |
| ToDoList.ExpiredIdsExactly | ToDoApp/ViewModels/ToDoListViewViewModel.swift:113-131 | an id is swept exactly when some document with that id is due before now minus one day and has `isDone` false |
| ToDoList.DoneItemsNeverSwept | ToDoApp/ViewModels/ToDoListViewViewModel.swift:128 | a completed item is never deleted by the sweep |
| ToDoList.SweepOfItem | ToDoApp/ViewModels/ToDoListViewViewModel.swift:113-131 | an item's document is swept exactly when the item is not done and its dueDate is before now minus one day |
| ToDoList.TodayTasks | ToDoApp/ViewModels/ToDoListViewViewModel.swift:151-159 | exactly the documents that are not done and due on the same day as now |
| ToDoList.TodayTasksConcat | ToDoApp/ViewModels/ToDoListViewViewModel.swift:151-159 | the count of today's tasks adds up over parts of a snapshot |
| ToDoList.TodayCountOfItems | ToDoApp/ViewModels/ToDoListViewViewModel.swift:151-162 | for a snapshot of item documents, the notified count is the number of items not done and due today |
| ToDoList.ToDoListViewModel.constructor | ToDoApp/ViewModels/ToDoListViewViewModel.swift:12-20 | the view-model keeps its user id and starts with the new-item sheet hidden |
| ToDoList.ToDoListViewModel.SaveLocalItems | ToDoApp/ViewModels/ToDoListViewViewModel.swift:78-82 | the stored local list becomes the given items |
| ToDoList.ToDoListViewModel.Delete | ToDoApp/ViewModels/ToDoListViewViewModel.swift:32-46 | signed in: the user's collection loses that document and nothing else changes; otherwise the local list loses every item with the id; the `users` documents are unchanged |
| ToDoList.ToDoListViewModel.ToggleIsDone | ToDoApp/ViewModels/ToDoListViewViewModel.swift:48-67 | signed in: the document becomes the toggled copy; otherwise the first local item with the id is replaced by it, and an absent id changes nothing; the `users` documents are unchanged |
| ToDoList.ToDoListViewModel.AddItem | ToDoApp/ViewModels/ToDoListViewViewModel.swift:84-98 | signed in: the item's document is written under its id; otherwise the item is appended to the local list; the `users` documents are unchanged |
| ToDoList.ToDoListViewModel.CheckExpiredTasks | ToDoApp/ViewModels/ToDoListViewViewModel.swift:110-133 | a failed query changes nothing; otherwise exactly the expired, not-done ids are deleted from the backend `userId` selects; the `users` documents are unchanged |
| ToDoList.ToDoListViewModel.ScheduleDailyNotification | ToDoApp/ViewModels/ToDoListViewViewModel.swift:135-164 | a failed fetch changes nothing; otherwise the daily slot holds one request whose body carries the number of today's not-done tasks |
| ItemStatus.StatusAfter | ToDoApp/ViewModels/ToDoListItemViewViewModel.swift:40-54 | a row adopts a broadcast status only when it holds an item with that id, and keeps its own otherwise |
| ItemStatus.StatusAfterIdempotent | ToDoApp/ViewModels/ToDoListItemViewViewModel.swift:40-54 | hearing the same broadcast twice equals hearing it once |
| ItemStatus.StatusAfterLastWins | ToDoApp/ViewModels/ToDoListItemViewViewModel.swift:40-54 | for the matching row the last broadcast status wins |
| ItemStatus.ToDoListItemViewModel.constructor | ToDoApp/ViewModels/ToDoListItemViewViewModel.swift:18-24 | a new row is not done and holds no item |
| ItemStatus.ToDoListItemViewModel.SetItem | ToDoApp/ViewModels/ToDoListItemViewViewModel.swift:119-121 | the row holds the given item |
| ItemStatus.ToDoListItemViewModel.HandleTodoStatusChanged | ToDoApp/ViewModels/ToDoListItemViewViewModel.swift:40-54 | the row's state becomes `StatusAfter` of its item and old state |
| ItemStatus.ToDoListItemViewModel.ToggleIsDone | ToDoApp/ViewModels/ToDoListItemViewViewModel.swift:56-79 | the row flips at once and holds the toggled copy; a write of the new state is requested exactly when a user is signed in |
| ItemStatus.ToDoListItemViewModel.CompleteToggle | ToDoApp/ViewModels/ToDoListItemViewViewModel.swift:75-90 | the write succeeds exactly when reachable and the document exists, and then sets only its `isDone`; on failure the database is unchanged, this row reverts and the other rows are untouched; on success every observer applies `StatusAfter`; no row's item ever changes; the `users` documents are unchanged |
| ItemStatus.ToDoListItemViewModel.NotifyStatusChange | ToDoApp/ViewModels/ToDoListItemViewViewModel.swift:93-99 | every live row applies `StatusAfter` for the broadcast and keeps its item |
| ItemStatus.ToDoListItemViewModel.Delete | ToDoApp/ViewModels/ToDoListItemViewViewModel.swift:101-116 | signed in: the user's collection loses that document; otherwise nothing changes; the `users` documents are unchanged |
| ItemStatus.TwoRowsConverge | ToDoApp/ViewModels/ToDoListItemViewViewModel.swift:56-99 | after a successful toggle in one row, a second row showing the same item and the stored document all agree on the new state |
| Notifications.DailyBodyInjective | ToDoApp/ViewModels/NotificationManager.swift:53 | different task counts give different notification bodies |
| Notifications.WithoutIdentifier | ToDoApp/ViewModels/NotificationManager.swift:62-68 | what remains of the pending list has no request with the replaced identifier and nothing new |
| Notifications.SlotCountWithout | ToDoApp/ViewModels/NotificationManager.swift:62-68 | removing an identifier empties its slot and leaves other slots' counts alone |
| Notifications.AddKeepsSlots | ToDoApp/ViewModels/NotificationManager.swift:62-68 | after adding, the added identifier has exactly one pending request and other identifiers keep theirs |
| Notifications.NotificationCenter.RemoveAllPendingNotificationRequests | ToDoApp/ViewModels/NotificationManager.swift:29 | no request is pending afterwards |
| Notifications.NotificationCenter.Add | ToDoApp/ViewModels/NotificationManager.swift:43 | the request replaces any pending one with its identifier and is then its identifier's only request |
| Notifications.NotificationManager.ScheduleDailyNotification | ToDoApp/ViewModels/NotificationManager.swift:27-48 | afterwards the only pending request is the repeating daily one with empty title and body and a sound |
| Notifications.NotificationManager.UpdateNotificationWithTaskCount | ToDoApp/ViewModels/NotificationManager.swift:50-73 | the daily slot holds one 08:30 repeating request with the count in its body; other identifiers are untouched |
| NewItem.CanSaveExactly | ToDoApp/ViewModels/NewItemViewViewModel.swift:43-52 | the form can be saved exactly when the title has a non-whitespace character and the due date is at most one day in the past |
| NewItem.DueDateBoundary | ToDoApp/ViewModels/NewItemViewViewModel.swift:47 | a due date exactly 86400 s ago is accepted and one second earlier is refused |
| NewItem.NewlineTitleIsNotBlank | ToDoApp/ViewModels/NewItemViewViewModel.swift:44 | a title made only of a line break counts as filled in, because newlines are not trimmed here |
| NewItem.NewItemViewModel.CanSave | ToDoApp/ViewModels/NewItemViewViewModel.swift:43-52 | the form can be saved exactly when the title has a non-space character and the due date is at most 86400 s before now |
| NewItem.NewItemViewModel.constructor | ToDoApp/ViewModels/NewItemViewViewModel.swift:12-15 | the form starts empty, due now, with no alert |
| NewItem.NewItemViewModel.Save | ToDoApp/ViewModels/NewItemViewViewModel.swift:22-41 | with an unsavable form or no user nothing is written; otherwise a not-done item with the form's fields, created now, is written under its new id; the `users` documents are unchanged |
| UserRecord.User.WithQuota | ToDoApp/Models/User.swift:11-15 | only the quota, the one `var` field, changes |
| UserRecord.AsDictionary | ToDoApp/Models/User.swift:17-25 | the user document has exactly the five keys, each holding that field |
| UserRecord.AsDictionaryInjective | ToDoApp/Models/User.swift:17-25 | different users give different documents |
| Profile.DecodeUser | ToDoApp/ViewModels/ProfileViewViewModel.swift:43-49 | each field is the document's value of the right type, or "" / 0 otherwise |
| Profile.DecodeAsDictionary | ToDoApp/ViewModels/ProfileViewViewModel.swift:43-49 | decoding a user's own document gives the user back |
| Profile.DecodeDefaults | ToDoApp/ViewModels/ProfileViewViewModel.swift:44-48 | a document with no string id, name or email and no numeric joined or quota decodes to the all-default user |
| Profile.ProfileViewModel.constructor | ToDoApp/ViewModels/ProfileViewViewModel.swift:12-24 | no user yet; after the initial `fetchUser()` it is loading exactly when someone is signed in |
| Profile.ProfileViewModel.FetchUser | ToDoApp/ViewModels/ProfileViewViewModel.swift:19-24 | a fetch starts exactly when a user is signed in, and loading is on exactly then |
| Profile.ProfileViewModel.CompleteFetch | ToDoApp/ViewModels/ProfileViewViewModel.swift:29-51 | loading always stops; data replaces the user with its decoding; an error or no data keeps the old user |
| Profile.FetchWrittenProfile | ToDoApp/ViewModels/ProfileViewViewModel.swift:19-53 | fetching a profile document written from a user shows exactly that user |
| Login.IsValidEmailMatchesPattern | ToDoApp/ViewModels/LogInViewViewModel.swift:77-79 | the executable check agrees with the e-mail pattern: local part, '@', domain, '.', 2 to 64 letters |
| Login.ValidEmailShape | ToDoApp/ViewModels/LogInViewViewModel.swift:77-79 | a valid address has exactly one '@' and contains a '.' |
| Login.SampleEmails | ToDoApp/ViewModels/LogInViewViewModel.swift:77 | "ali@x.com" matches; a one-letter top-level domain and an empty local part do not |
| Login.IsValidEmail | ToDoApp/ViewModels/LogInViewViewModel.swift:77-79 | an accepted address has at least 6 characters and starts with a local-part character; `IsValidEmailMatchesPattern` ties it to the pattern |
| Login.LoginValidationError | ToDoApp/ViewModels/LogInViewViewModel.swift:66-91 | the message is one of the three validation messages; passing fields have an e-mail of at least 6 characters and a password of at least 6 |
| Login.HandleFirebaseError | ToDoApp/ViewModels/LogInViewViewModel.swift:93-127 | an unlisted code gives the generic prefix followed by the error's own description, which can be read back; every other error gets one of the fixed messages |
| Login.LoginValidationAccepts | ToDoApp/ViewModels/LogInViewViewModel.swift:66-91 | validation passes exactly when neither field is blank, the e-mail matches and the password has at least 6 characters |
| Login.BlankReportedFirst | ToDoApp/ViewModels/LogInViewViewModel.swift:70-74 | a blank field is reported before any other problem |
| Login.PasswordLengthBoundary | ToDoApp/ViewModels/LogInViewViewModel.swift:85-88 | 6 characters pass and 5 are refused |
| Login.WrongPasswordMessages | ToDoApp/ViewModels/LogInViewViewModel.swift:93-127 | a wrong-password message is shown exactly for the wrong-password and invalid-credential codes and for uncoded errors whose description mentions a malformed credential or wrong password |
| Login.OtherCodeIsNotWrongPassword | ToDoApp/ViewModels/LogInViewViewModel.swift:115-116 | the message for other codes never reads as a wrong-password message |
| Login.UppercaseDescriptionStillMaps | ToDoApp/ViewModels/LogInViewViewModel.swift:121-123 | the description is matched ignoring case |
| Login.LastSentKeyInjective | ToDoApp/ViewModels/LogInViewViewModel.swift:139 | different users keep separate send times |
| Login.ResendAfterRecord | ToDoApp/ViewModels/LogInViewViewModel.swift:139-164 | after a recorded send, that user may resend exactly 60 s later or more, and other users are unaffected |
| Login.LogInViewModel.constructor | ToDoApp/ViewModels/LogInViewViewModel.swift:14-24 | all fields start empty or false |
| Login.LogInViewModel.Validate | ToDoApp/ViewModels/LogInViewViewModel.swift:66-91 | succeeds exactly when there is no validation error; the error message is that error or "" |
| Login.LogInViewModel.ShowError | ToDoApp/ViewModels/LogInViewViewModel.swift:28-30 | the alert shows the error message under the given title |
| Login.LogInViewModel.LogIn | ToDoApp/ViewModels/LogInViewViewModel.swift:26-35 | sign-in is attempted exactly when validation passes; otherwise the "Hata" alert shows the validation message |
| Login.LogInViewModel.CompleteLogIn | ToDoApp/ViewModels/LogInViewViewModel.swift:36-62 | loading stops; a failure shows the mapped message; an unverified user is signed out and told to verify; a verified user or no user changes no message |
| Login.LogInViewModel.ResendVerificationEmail | ToDoApp/ViewModels/LogInViewViewModel.swift:129-151 | a send happens exactly when a user is signed in and 60 s have passed since the last send; otherwise the matching alert is shown |
| Login.LogInViewModel.CompleteResend | ToDoApp/ViewModels/LogInViewViewModel.swift:151-172 | success records the send time and shows success; code 17010 shows the too-many message; other errors show their description |
| Login.LogInViewModel.ResetPassword | ToDoApp/ViewModels/LogInViewViewModel.swift:175-196 | a reset is sent exactly when the e-mail is filled in and valid; otherwise the matching alert is shown |
| Login.LogInViewModel.CompleteReset | ToDoApp/ViewModels/LogInViewViewModel.swift:196-212 | loading stops and the success or failure alert is shown |
| Register.RegisterValidationAccepts | ToDoApp/ViewModels/RegisterViewViewModel.swift:50-70 | registration validates exactly when no field is blank, the e-mail contains '@' and '.', and the password has at least 6 characters |
| Register.RegisterMessageOrder | ToDoApp/ViewModels/RegisterViewViewModel.swift:50-70 | blank fields are reported first, then the e-mail, then the password length |
| Register.SignInEmailPassesHere | ToDoApp/ViewModels/RegisterViewViewModel.swift:59 | every address sign-in accepts is accepted here |
| Register.HereLooserThanSignIn | ToDoApp/ViewModels/RegisterViewViewModel.swift:59 | "@." is accepted here but refused at sign-in |
| Register.RegisterValidationError | ToDoApp/ViewModels/RegisterViewViewModel.swift:50-70 | the message is one of the three validation messages; a passing form has a non-empty e-mail and a password of at least 6 |
| Register.RegisterViewModel.constructor | ToDoApp/ViewModels/RegisterViewViewModel.swift:13-16 | all fields start empty |
| Register.RegisterViewModel.Validate | ToDoApp/ViewModels/RegisterViewViewModel.swift:50-70 | succeeds exactly when there is no validation error; the error message is that error or "" |
| Register.RegisterViewModel.Register | ToDoApp/ViewModels/RegisterViewViewModel.swift:22-25 | an account is requested exactly when validation passes |
| AIChat.LineMessage | ToDoApp/ViewModels/AIViewModel.swift:61-66 | a line gives at most one message, and one exactly when it has a character other than whitespace or a line break |
| AIChat.ReplyMessages | ToDoApp/ViewModels/AIViewModel.swift:57-67 | a reply gives no more messages than lines |
| AIChat.ReplyMessagesCons | ToDoApp/ViewModels/AIViewModel.swift:60-67 | the first line's message comes first: messages keep the lines' order |
| AIChat.ReplyMessagesCount | ToDoApp/ViewModels/AIViewModel.swift:60-67 | there is exactly one message per line that is not blank once trimmed |
| AIChat.LineMessageShape | ToDoApp/ViewModels/AIViewModel.swift:61-66 | the message a line without a line break gives, if any, is the AI's, stamped now, non-empty and trimmed |
| AIChat.ReplyMessagesShape | ToDoApp/ViewModels/AIViewModel.swift:57-66 | every reply message is the AI's, stamped now, non-empty, trimmed at both ends, and has no line break |
| AIChat.ReplyMessagesFromLines | ToDoApp/ViewModels/AIViewModel.swift:60-66 | every message is the trimmed text of one of the lines |
| AIChat.ReplyWellFormed | ToDoApp/ViewModels/AIViewModel.swift:52-70 | the messages a whole reply adds are not the user's, non-empty, free of '\n' and trimmed |
| AIChat.StripMarkersNone | ToDoApp/ViewModels/AIViewModel.swift:42-46 | text without markers is left as it is |
| AIChat.StripMarkersLeading | ToDoApp/ViewModels/AIViewModel.swift:42-46 | a leading marker is removed, and nothing else |
| AIChat.CleanedMessage | ToDoApp/ViewModels/AIViewModel.swift:40-48 | the cleaned text is empty or neither starts nor ends with whitespace or a line break |
| AIChat.CleanedWithoutMarkers | ToDoApp/ViewModels/AIViewModel.swift:40-48 | text without markers is only trimmed |
| AIChat.CleanedStep | ToDoApp/ViewModels/AIViewModel.swift:40-48 | "Adım k: " followed by marker-free text cleans to that text trimmed |
| AIChat.AIViewModel.constructor | ToDoApp/ViewModels/AIViewModel.swift:12-16 | empty input, no messages, not loading, nothing selected |
| AIChat.AIViewModel.SendMessage | ToDoApp/ViewModels/AIViewModel.swift:27-38 | blank input changes nothing; otherwise the untrimmed input is appended as the user's message, the input is cleared and becomes the prompt |
| AIChat.AIViewModel.StartSendToAI | ToDoApp/ViewModels/AIViewModel.swift:53 | loading starts |
| AIChat.AIViewModel.ReceiveResponse | ToDoApp/ViewModels/AIViewModel.swift:54-70 | the reply's messages are appended after the existing ones and loading stops |
| AIChat.AIViewModel.AppendParagraphs | ToDoApp/ViewModels/AIViewModel.swift:60-67 | the loop appends exactly the reply messages of the lines, in order |
| AIChat.AIViewModel.AppendParagraph | ToDoApp/ViewModels/AIViewModel.swift:61-66 | one turn appends the line's message, if any |
| MessageBubble.MessageBubbleViewModel.constructor | ToDoApp/ViewModels/MessageBubbleViewModel.swift:15-17 | the bubble shares the given chat view-model |
| MessageBubble.MessageBubbleViewModel.AddNewItem | ToDoApp/ViewModels/MessageBubbleViewModel.swift:20-23 | the shared view-model selects the content and shows the new-item sheet; messages, input and loading are unchanged |
| AIService.UnwrapWrap | ToDoApp/Services/AIService.swift:23 | the user's prompt can be read back out of the template |
| AIService.WrapPromptInjective | ToDoApp/Services/AIService.swift:23 | different prompts give different requests |
| AIService.WrapPrompt | ToDoApp/Services/AIService.swift:23 | the prompt sits between the fixed lead and tail of the template, and the length adds up |
| AIService.DecodeResponse | ToDoApp/Services/AIService.swift:38-75 | first choice, or "No Response Found" with no choices; an undecodable body with an API message gives "API Error: " and that message; otherwise the generic error |
| AIService.ApiErrorRoundTrip | ToDoApp/Services/AIService.swift:67 | the API's message can be read back from the "API Error: " answer |
| AIService.GetAIResponse | ToDoApp/Services/AIService.swift:18-35 | a request is sent exactly when a key exists and the request builds; it carries the key and the wrapped prompt; missing key, build failure and transport error give their fixed answers |
| AIService.ResponseIsFromLadder | ToDoApp/Services/AIService.swift:18-75 | the answer is always one of the ladder's: key missing, generic error, no response, a choice, or the API's error |
| AIService.MissingKeyIgnoresNetwork | ToDoApp/Services/AIService.swift:19-21 | without a key the answer does not depend on the request or the network |
| Environment.ParseLine | ToDoApp/Services/EnvironmentManager.swift:16-19 | a line holds a value only if it has exactly one '=', and the value has none |
| Environment.ParseLineRoundTrip | ToDoApp/Services/EnvironmentManager.swift:16-19 | the line `k=v` gives the trimmed `v` under the trimmed `k` |
| Environment.EnvFileLookup | ToDoApp/Services/EnvironmentManager.swift:14-22 | a value read from the file never contains '=' |
| Environment.EnvFileLookupNone | ToDoApp/Services/EnvironmentManager.swift:14-22 | the file has no value exactly when no line holds the key |
| Environment.EnvFileFirstMatch | ToDoApp/Services/EnvironmentManager.swift:15-20 | the first line that holds the key decides |
| Environment.GetValue | ToDoApp/Services/EnvironmentManager.swift:8-51 | the loop with early return computes the `.env`, environment, Info.plist lookup |
| Environment.Lookup | ToDoApp/Services/EnvironmentManager.swift:8-51 | a key in the process environment is always found; a value with '=' never comes from the `.env` file |
| Environment.ApiKey | ToDoApp/Services/EnvironmentManager.swift:53-55 | no key is found only when the environment lacks `API_KEY` and the plist has no string under it |
| Environment.LookupNone | ToDoApp/Services/EnvironmentManager.swift:10-50 | the result is nil exactly when no source has the key |
| Environment.EnvFileWins | ToDoApp/Services/EnvironmentManager.swift:10-21 | a `.env` value beats the environment and the plist |
| Environment.ProcessEnvironmentBeforePlist | ToDoApp/Services/EnvironmentManager.swift:35-46 | without a `.env` value the environment beats the plist |
| Store.CreditsFor | ToDoApp/ViewModels/StoreManager.swift:74-84 | 10, 50 and 100 for the three pack ids; nonzero exactly for the listed product ids |
| Store.StoreManager.constructor | ToDoApp/ViewModels/StoreManager.swift:9-11 | no products, no credits, no error |
| Store.StoreManager.AddCreditsToUser | ToDoApp/ViewModels/StoreManager.swift:70-96 | no user: nothing changes; a successful increment raises the quota and `purchasedCredits` by the pack's credits and keeps other fields; a failed one sets only the error |
| Store.StoreManager.Purchase | ToDoApp/ViewModels/StoreManager.swift:44-96 | only a verified success adds credits, with the no-user, successful-write and failed-write outcomes of `addCreditsToUser` (error kept, other users and fields kept, or the add-credits error); unverified, pending, unknown and thrown set their messages; cancelling changes nothing |
| Store.PurchaseKeepsLedger | ToDoApp/ViewModels/StoreManager.swift:86-92 | whatever the outcome, `purchasedCredits` grows by exactly what the user's quota grows by |
| Firestore.Database.SetData | ToDoApp/ViewModels/ToDoListViewViewModel.swift:87-91 | the user's collection maps the id to the new document; other users are untouched |
| Firestore.Database.Delete | ToDoApp/ViewModels/ToDoListViewViewModel.swift:35-39 | the user's collection loses the id; other users are untouched |
| Firestore.Database.UpdateData | ToDoApp/ViewModels/ToDoListItemViewViewModel.swift:75-79 | succeeds exactly when reachable and the document exists, and then changes one field of it |
| Firestore.Database.IncrementField | ToDoApp/ViewModels/StoreManager.swift:87-91 | succeeds exactly when reachable and the user document exists, and then adds the amount to the field, where a missing field counts as 0 |
| Text.Trim | ToDoApp/ViewModels/AIViewModel.swift:61 | the result is an infix with no trimmed character at either end, and everything dropped before and after it is a trimmed character; it is empty exactly when every character is trimmed; an untrimmed string is unchanged |
| Text.TrimDropped | ToDoApp/ViewModels/AIViewModel.swift:61 | every character dropped before or after the kept part is a trimmed character |
| Text.TrimKeepsAbsent | ToDoApp/ViewModels/AIViewModel.swift:61 | trimming adds no character |
| Text.Components | ToDoApp/Services/EnvironmentManager.swift:14-16 | at least one piece, none holding a separator |
| Text.ComponentsCount | ToDoApp/Services/EnvironmentManager.swift:16-17 | one more piece than separators |
| Text.JoinComponents | ToDoApp/Services/EnvironmentManager.swift:16 | joining the pieces with the separator gives the string back |
| Text.Split | ToDoApp/ViewModels/AIViewModel.swift:57 | every piece is non-empty and free of the separator |
| Text.ComponentsConcat | ToDoApp/Services/EnvironmentManager.swift:14-16 | at a separator the pieces are those before it followed by those after it |
| Text.NonEmptyConcat | ToDoApp/ViewModels/AIViewModel.swift:57 | dropping empty pieces works piecewise over a concatenation |
| Text.SplitEmpty | ToDoApp/ViewModels/AIViewModel.swift:57 | the empty reply has no lines |
| Text.SplitNoSeparator | ToDoApp/ViewModels/AIViewModel.swift:57 | a non-empty text without the separator is its only line |
| Text.SplitConcat | ToDoApp/ViewModels/AIViewModel.swift:57 | at a separator the lines are those before it followed by those after it, in order, nothing lost or added |
| Text.ContainsAt | ToDoApp/ViewModels/LogInViewViewModel.swift:122 | `contains` holds exactly when some index starts an occurrence |
| Text.RemoveAll | ToDoApp/ViewModels/AIViewModel.swift:42-46 | never lengthens, and a string without the pattern is unchanged |
| Text.RemoveAllAfter | ToDoApp/ViewModels/AIViewModel.swift:42-46 | only occurrences are removed, scanning left to right: text before the first occurrence is kept as it is and the rest is processed after that occurrence |
| Text.ToLower | ToDoApp/ViewModels/LogInViewViewModel.swift:121 | same length, each character folded |
| Text.DecimalRoundTrip | ToDoApp/ViewModels/NotificationManager.swift:53 | reading the rendered digits back gives the number |
| Text.IntToDecimalInjective | ToDoApp/ViewModels/NotificationManager.swift:53 | different integers render differently |

## Left out

- Firebase Auth, Firestore, StoreKit, URLSession and UNUserNotificationCenter are not called. Their results are method parameters (`reachable`, `snapshot`, `outcome`, `transport`, `error`), and the database is the `Database` object.
- Notifications.NotificationCenter.Add: that `add` replaces a pending request with the same identifier is the operating system's behaviour. The model assumes it.
- The hourly `Timer` (`startExpirationCheck`), the snapshot listener, `DispatchQueue.main.async` hops and `deinit`: scheduling and concurrency. One sweep and one recount over a given snapshot are modelled.
- UserDefaults JSON encoding of the local list: it is an optional in-memory sequence, and undecodable or missing data reads as the empty list.
- Floating-point `TimeInterval` and `Date`: time is integer seconds, "one day earlier" is `now - 86400`, and `isDate(_:inSameDayAs:)` is a `dayOf` parameter.
- The NSPredicate regular expression: `Login.IsValidEmail` is a hand-written scan that is proved equal to the pattern `MatchesEmailPattern`.
- Swift `Character` grapheme clusters: a string is a sequence of Unicode scalars, so "\r\n" counts as two characters for `count`, `split` and `components`.
- Login.HandleFirebaseError: `lowercased()` is modelled for ASCII letters only.
- ToDoItem.AsDictionary: `ToDoListItem.asDictionary()` is defined in an extension that is not part of this model. The document is assumed to hold the record's fields under their own names, with no `description` key when it is nil.
- Environment.GetValue: reading the `.env` file and the bundle is not modelled. A missing file and an unreadable one are both `envFile == None`, and both fall through.
- AIService.GetAIResponse: `RequestBuilder` and `NetworkManager` are not part of this model. Whether the request builds is the parameter `built`, and JSON decoding is the `Payload` input.
- `loadProducts`, `requestAuthorization`, `logOut`, `demoLogin` and the notification-center delegate methods are I/O without logic worth stating.
- `insertUserRecord` (ToDoApp/ViewModels/RegisterViewViewModel.swift:38-47) is not modelled. It builds a `User` without the `aiMessageQuota` the struct requires.
- The views and the rest of the app are not part of this model.
- Store.StoreManager.AddCreditsToUser: the 64-bit increment and `Int` overflow of `purchasedCredits` are not modelled, because integers are unbounded here.
- The expiry sweep runs even with an empty `userId`. The model then deletes from the local list by the ids of the given snapshot. Firestore's own handling of an empty document path is not modelled.
- No reminder 30 minutes before the due date, no rollback broadcast after a failed toggle and no `remindMe` field: the code has none, so the model has none either.
- Credit products are matched as whole ids, as the `switch` does, and not by suffix.
