# Bole mobile client: state stores, form checks and application workflow

Bole is a job-recruitment platform. Its React Native client keeps its state in
four Redux Toolkit slices and checks its forms before it calls the REST
backend. This project is a Dafny model of that logic, with proofs about it:

- **Chat store** (`ChatSlice`). The ordered conversation list and one message
  list per conversation. Socket pushes append a message and move its
  conversation to the top. A status event sets the status of the first
  message with a given id in every list. A confirmed send replaces the stored
  copy (matched by server id or by local `tempId`) or appends. There are also
  the loading/error/socket flags.
- **Jobs and applications stores** (`JobsSlice`, `ApplicationsSlice`). Paged
  lists that are replaced on fetch. A created item is prepended, an updated
  one replaces its first match by id, and a deleted job is filtered out. Each
  request has a pending, rejected and fulfilled case.
- **Auth store** (`AuthSlice`). Login, registration, logout, restoring a
  stored session, and merging profile edits into the user.
- **Sign-in, registration and password-reset forms** (`LoginScreen`,
  `RegisterScreen`, `ForgotPasswordScreen`). They share `Validation`:
  JavaScript's `trim`/`\s` whitespace, the e-mail pattern
  `^[^\s@]+@[^\s@]+\.[^\s@]+$` and the password rule. Each form has a field
  check per input, `validateForm` and the submit handler.
- **Application status workflow** (`ApplicationsScreen`,
  `ApplicationDetailScreen`). Status → colour and status → label mappings.
  The buttons a recruiter is offered are pending → {interview, rejected} and
  interview → {accepted, rejected}. Changing the status rewrites only the
  status.

Each slice is a class whose fields are the slice's state. Each reducer case is
a method that updates them in place. `State()` gives the whole state as one
value, so each method says what its new state is and that nothing else
changed. The list and map work is done by functions (`ListOps`, and the step
functions of each slice). Lemmas state what those functions promise about
order, length, duplicates and idempotence.

Thunk results are inputs: REST payloads, socket events, the rejection payload
and the values read from device storage are method parameters. The forms
are classes holding their `useState` fields. A network outcome is passed to
the password-reset handler as a parameter.

The chat reducers never de-duplicate pushed messages, insert no optimistic
placeholder before a message is sent, and never order messages or
conversations by timestamp. `ChatSlice.ReceiveNeverDeduplicates` and
`ChatSlice.ConfirmThenEchoStoresTwice` state the consequence: a socket echo
that arrives after the REST confirmation leaves two copies of the message.

## Model

| member | source | states |
|---|---|---|
| `Common.RejectedError` | bole-mobile/src/store/slices/chatSlice.js:197-200 | `payload ? payload.message : fallback`. No payload gives the fallback. A payload gives its message, even a missing one. A missing result implies a payload was present. |
| `ListOps.FindIndex` | bole-mobile/src/store/slices/chatSlice.js:150-152 | `findIndex`. The result is -1 exactly when no element matches. Otherwise it is a matching index with no match before it. |
| `ListOps.UpdateFirst` | bole-mobile/src/store/slices/jobsSlice.js:165-168 | Assigning to the first match. The length is kept. With no match the list is unchanged. Only the first match's index changes, to `f` of its old value. |
| `ListOps.MoveToFront` | bole-mobile/src/store/slices/chatSlice.js:157-160 | `splice(i, 1)` then `unshift`. The chosen element is first. The earlier ones shift by one and the later ones stay put. It is a permutation (same multiset). |
| `ListOps.Filter` | bole-mobile/src/store/slices/jobsSlice.js:181 | `filter`. The result is no longer than the input. Every kept element passes and comes from the input. Every passing element is kept. |
| `ListOps.FilterAppend` | bole-mobile/src/store/slices/jobsSlice.js:181 | Filtering distributes over concatenation, so the kept elements stay in their original order. |
| `ListOps.FilterIdempotent` | bole-mobile/src/store/slices/jobsSlice.js:181 | Filtering twice with the same test equals filtering once. |
| `ListOps.FilterAllOrNone` | bole-mobile/src/store/slices/jobsSlice.js:181 | If every element passes, the list is unchanged. If none does, the result is empty. |
| `ChatSlice.Fallback` | bole-mobile/src/store/slices/chatSlice.js:199-268 | Every chat request has a non-empty fixed fallback error text. |
| `ChatSlice.FallbackIdentifiesRequest` | bole-mobile/src/store/slices/chatSlice.js:199-268 | Different chat requests have different fallback texts, so the error stored on a rejection without payload tells which request failed. |
| `ChatSlice.ConfirmReplacesOptimisticCopy` | bole-mobile/src/store/slices/chatSlice.js:218-233 | When the first stored copy picked out carries the confirmed message's truthy `tempId`, the confirmation replaces it in place. The list keeps its length. |
| `ChatSlice.SameMessage` | bole-mobile/src/store/slices/chatSlice.js:224-227 | A stored message matches a confirmed one when the ids are equal, or when both carry the same truthy `tempId`. A stored copy with an absent or empty `tempId` matches on the id alone. |
| `ChatSlice.ConversationIndex` | bole-mobile/src/store/slices/chatSlice.js:150-152 | The first conversation with the id, or -1 exactly when none has it. |
| `ChatSlice.AppendMessage` | bole-mobile/src/store/slices/chatSlice.js:143-147 | The conversation's list, or an empty one, grows by exactly one with the message last. The earlier entries are kept. Every other conversation's list is unchanged. The key set gains the conversation id. |
| `ChatSlice.BringToTop` | bole-mobile/src/store/slices/chatSlice.js:149-161 | If the conversation is listed, it gets `lastMessage` and moves to index 0. The others keep their relative order and the length is kept. If it is not listed, the list is unchanged. |
| `ChatSlice.UpsertMessage` | bole-mobile/src/store/slices/chatSlice.js:222-233 | The first entry with the same id, or with a truthy equal `tempId`, is replaced in place and nothing else changes. Without such an entry the message is appended. |
| `ChatSlice.ConfirmMessage` | bole-mobile/src/store/slices/chatSlice.js:221-236 | An existing list is upserted and a missing list becomes `[m]`. Other conversations are unchanged. |
| `ChatSlice.SetStatusInList` | bole-mobile/src/store/slices/chatSlice.js:168-174 | The length is kept. Only the first message with the id gets the new status. An absent id leaves the list unchanged. |
| `ChatSlice.StatusUpdated` | bole-mobile/src/store/slices/chatSlice.js:163-176 | Every conversation's list goes through `SetStatusInList` on its own, so no list's result depends on another. The keys and every list's length are kept. |
| `ChatSlice.UpdateEveryList` | bole-mobile/src/store/slices/chatSlice.js:167-175 | The `forEach` over the message keys, in any visiting order, yields exactly `StatusUpdated`. |
| `ChatSlice.ReceiveNeverDeduplicates` | bole-mobile/src/store/slices/chatSlice.js:139-147 | Receiving a message adds exactly one occurrence of it (as a multiset), even when it is already stored. |
| `ChatSlice.UnknownStatusIdIsNoOp` | bole-mobile/src/store/slices/chatSlice.js:163-176 | A status event for an id no stored message carries changes no list. |
| `ChatSlice.EchoThenConfirmStoresOnce` | bole-mobile/src/store/slices/chatSlice.js:218-236 | If the socket echo arrives before the REST confirmation, the confirmation replaces the echoed copy and the message is stored once. |
| `ChatSlice.ConfirmThenEchoStoresTwice` | bole-mobile/src/store/slices/chatSlice.js:139-147 | If the REST confirmation arrives before the echo, the list ends with two copies of the message. |
| `ChatSlice.BringToTopIdempotent` | bole-mobile/src/store/slices/chatSlice.js:150-161 | Moving the same message's conversation to the top twice equals doing it once. |
| `ChatSlice.ChatStore.constructor` | bole-mobile/src/store/slices/chatSlice.js:120-127 | The initial state: no conversations, no messages, all flags off. |
| `ChatSlice.ChatStore.SetCurrentConversation` | bole-mobile/src/store/slices/chatSlice.js:133-135 | Only `currentConversation` changes. |
| `ChatSlice.ChatStore.ClearChatError` | bole-mobile/src/store/slices/chatSlice.js:136-138 | Only `error` changes, to null. |
| `ChatSlice.ChatStore.ReceiveMessage` | bole-mobile/src/store/slices/chatSlice.js:139-161 | `messages` becomes `AppendMessage`, `conversations` becomes `BringToTop`, and nothing else changes. |
| `ChatSlice.ChatStore.UpdateMessageStatus` | bole-mobile/src/store/slices/chatSlice.js:163-176 | `messages` becomes `StatusUpdated` and nothing else changes. |
| `ChatSlice.ChatStore.ConnectSocketFulfilled` | bole-mobile/src/store/slices/chatSlice.js:181-183 | Only `socketConnected` changes, to true. |
| `ChatSlice.ChatStore.DisconnectSocketFulfilled` | bole-mobile/src/store/slices/chatSlice.js:185-187 | Only `socketConnected` changes, to false. |
| `ChatSlice.ChatStore.Pending` | bole-mobile/src/store/slices/chatSlice.js:189-259 | `error` is cleared. `loading` is set except for `sendMessage`. Nothing else changes. |
| `ChatSlice.ChatStore.Rejected` | bole-mobile/src/store/slices/chatSlice.js:197-269 | `error` becomes `RejectedError`. `loading` is cleared except for `sendMessage`. Conversations and messages are untouched. |
| `ChatSlice.ChatStore.FetchConversationsFulfilled` | bole-mobile/src/store/slices/chatSlice.js:193-196 | The conversation list is replaced wholesale and `loading` is cleared. |
| `ChatSlice.ChatStore.FetchMessagesFulfilled` | bole-mobile/src/store/slices/chatSlice.js:206-209 | Only the fetched conversation's list is replaced. The others are kept and `loading` is cleared. |
| `ChatSlice.ChatStore.SendMessageFulfilled` | bole-mobile/src/store/slices/chatSlice.js:218-251 | `messages` becomes `ConfirmMessage`, then `conversations` becomes `BringToTop`. Nothing else changes. |
| `ChatSlice.ChatStore.CreateConversationFulfilled` | bole-mobile/src/store/slices/chatSlice.js:260-265 | The conversation is prepended and becomes current, and its message list is empty. `loading` is cleared. |
| `JobsSlice.Fallback` | bole-mobile/src/store/slices/jobsSlice.js:127-186 | Every job request has a non-empty fixed fallback error text. |
| `JobsSlice.FallbackIdentifiesRequest` | bole-mobile/src/store/slices/jobsSlice.js:127-186 | Different job requests have different fallback texts, so the error stored on a rejection without payload tells which request failed. |
| `JobsSlice.JobIndex` | bole-mobile/src/store/slices/jobsSlice.js:165 | The first job with the id, or -1 exactly when none has it. |
| `JobsSlice.ReplaceJob` | bole-mobile/src/store/slices/jobsSlice.js:162-169 | The length is kept. The first job with the id becomes the payload. Everything else is unchanged, and the list is unchanged when no job matches. |
| `JobsSlice.WithoutJob` | bole-mobile/src/store/slices/jobsSlice.js:179-182 | No job with the id remains. Every other job is kept and nothing new appears. |
| `JobsSlice.DeleteKeepsOrder` | bole-mobile/src/store/slices/jobsSlice.js:181 | Deletion works piecewise on any split of the list, so the remaining jobs keep their order. |
| `JobsSlice.DeleteAbsentAndTwice` | bole-mobile/src/store/slices/jobsSlice.js:181 | Deleting an absent id changes nothing. Deleting twice equals deleting once. |
| `JobsSlice.ReplaceIdempotent` | bole-mobile/src/store/slices/jobsSlice.js:165-168 | Applying the same update twice equals applying it once. |
| `JobsSlice.JobsStore.constructor` | bole-mobile/src/store/slices/jobsSlice.js:94-101 | The initial state: empty list, no current job, page 0 of 0. |
| `JobsSlice.JobsStore.ClearJobError` | bole-mobile/src/store/slices/jobsSlice.js:107-109 | Only `error` changes, to null. |
| `JobsSlice.JobsStore.ClearCurrentJob` | bole-mobile/src/store/slices/jobsSlice.js:110-112 | Only `currentJob` changes, to null. |
| `JobsSlice.JobsStore.Pending` | bole-mobile/src/store/slices/jobsSlice.js:117-178 | `loading` is set and `error` is cleared. The jobs and the current job are untouched. |
| `JobsSlice.JobsStore.Rejected` | bole-mobile/src/store/slices/jobsSlice.js:127-186 | `loading` is cleared and `error` becomes `RejectedError`. The list is untouched. |
| `JobsSlice.JobsStore.FetchJobsFulfilled` | bole-mobile/src/store/slices/jobsSlice.js:121-126 | `jobs`, `totalPages` and `currentPage` come from `content`, `totalPages` and `number`. |
| `JobsSlice.JobsStore.FetchJobByIdFulfilled` | bole-mobile/src/store/slices/jobsSlice.js:136-139 | Only `currentJob` and `loading` change. |
| `JobsSlice.JobsStore.CreateJobFulfilled` | bole-mobile/src/store/slices/jobsSlice.js:149-152 | The new job is at index 0, followed by the earlier jobs in order. |
| `JobsSlice.JobsStore.UpdateJobFulfilled` | bole-mobile/src/store/slices/jobsSlice.js:162-169 | The job becomes current and the list becomes `ReplaceJob`. |
| `JobsSlice.JobsStore.DeleteJobFulfilled` | bole-mobile/src/store/slices/jobsSlice.js:179-182 | The list becomes `WithoutJob`. |
| `ApplicationsSlice.Fallback` | bole-mobile/src/store/slices/applicationsSlice.js:110-156 | Every application request has a non-empty fixed fallback error text. |
| `ApplicationsSlice.FallbackIdentifiesRequest` | bole-mobile/src/store/slices/applicationsSlice.js:110-156 | Different application requests have different fallback texts, so the error stored on a rejection without payload tells which request failed. |
| `ApplicationsSlice.ApplicationIndex` | bole-mobile/src/store/slices/applicationsSlice.js:148 | The first application with the id, or -1 exactly when none has it. |
| `ApplicationsSlice.ReplaceApplication` | bole-mobile/src/store/slices/applicationsSlice.js:145-152 | The length is kept. The first match by id becomes the payload. The list is unchanged when nothing matches. |
| `ApplicationsSlice.ReplaceKeepsIds` | bole-mobile/src/store/slices/applicationsSlice.js:148-151 | An update keeps the id at every position. A listed application stays listed. |
| `ApplicationsSlice.ApplicationsStore.constructor` | bole-mobile/src/store/slices/applicationsSlice.js:77-84 | The initial state: empty list, nothing current, page 0 of 0. |
| `ApplicationsSlice.ApplicationsStore.ClearApplicationError` | bole-mobile/src/store/slices/applicationsSlice.js:90-92 | Only `error` changes, to null. |
| `ApplicationsSlice.ApplicationsStore.ClearCurrentApplication` | bole-mobile/src/store/slices/applicationsSlice.js:93-95 | Only `currentApplication` changes, to null. |
| `ApplicationsSlice.ApplicationsStore.Pending` | bole-mobile/src/store/slices/applicationsSlice.js:100-144 | `loading` is set and `error` is cleared. Nothing else changes. |
| `ApplicationsSlice.ApplicationsStore.Rejected` | bole-mobile/src/store/slices/applicationsSlice.js:110-156 | `loading` is cleared and `error` becomes `RejectedError`. The list is untouched. |
| `ApplicationsSlice.ApplicationsStore.FetchApplicationsFulfilled` | bole-mobile/src/store/slices/applicationsSlice.js:104-109 | The list and the paging fields come from the page. |
| `ApplicationsSlice.ApplicationsStore.FetchApplicationByIdFulfilled` | bole-mobile/src/store/slices/applicationsSlice.js:119-122 | Only `currentApplication` and `loading` change. |
| `ApplicationsSlice.ApplicationsStore.CreateApplicationFulfilled` | bole-mobile/src/store/slices/applicationsSlice.js:132-135 | The new application is first, followed by the others in order. |
| `ApplicationsSlice.ApplicationsStore.UpdateApplicationStatusFulfilled` | bole-mobile/src/store/slices/applicationsSlice.js:145-152 | The application becomes current and the list becomes `ReplaceApplication`. |
| `AuthSlice.Fallback` | bole-mobile/src/store/slices/authSlice.js:110-126 | Both auth requests have a non-empty fixed fallback error text. |
| `AuthSlice.FallbackIdentifiesRequest` | bole-mobile/src/store/slices/authSlice.js:110-126 | Different auth requests have different fallback texts, so the error stored on a rejection without payload tells which request failed. |
| `AuthSlice.LoginUser` | bole-mobile/src/store/slices/authSlice.js:102 | `payload.user` if present, else the whole payload. |
| `AuthSlice.LoginToken` | bole-mobile/src/store/slices/authSlice.js:103 | The token is present exactly when the response has a `token` field, and then it is that field. |
| `AuthSlice.StoredSession` | bole-mobile/src/store/slices/authSlice.js:61-69 | A session comes back exactly when both a token and a user are stored (non-empty). It carries that token and the parsed user. |
| `AuthSlice.MergeProfile` | bole-mobile/src/store/slices/authSlice.js:86-87 | The keys are the payload's plus the existing user's. Every payload field has the payload's value. Every other existing field is kept. |
| `AuthSlice.AuthStore.constructor` | bole-mobile/src/store/slices/authSlice.js:71-77 | The initial state: signed out, not loading, no error. |
| `AuthSlice.AuthStore.ClearError` | bole-mobile/src/store/slices/authSlice.js:83-85 | Only `error` changes, to null. |
| `AuthSlice.AuthStore.UpdateProfile` | bole-mobile/src/store/slices/authSlice.js:86-90 | `user` becomes `MergeProfile` and nothing else changes. |
| `AuthSlice.AuthStore.Pending` | bole-mobile/src/store/slices/authSlice.js:95-119 | `loading` is set and `error` is cleared. Nothing else changes. |
| `AuthSlice.AuthStore.Rejected` | bole-mobile/src/store/slices/authSlice.js:110-126 | `loading` is cleared and `error` becomes `RejectedError`. User, token and the authenticated flag are untouched. |
| `AuthSlice.AuthStore.LoginFulfilled` | bole-mobile/src/store/slices/authSlice.js:99-109 | Authenticated, not loading, with `user` from `LoginUser` and `token` from `LoginToken`. Nothing else changes. |
| `AuthSlice.AuthStore.RegisterFulfilled` | bole-mobile/src/store/slices/authSlice.js:120-122 | Only `loading` is cleared. Registering never signs in. |
| `AuthSlice.AuthStore.LogoutFulfilled` | bole-mobile/src/store/slices/authSlice.js:128-132 | User and token become null and the user is not authenticated. |
| `AuthSlice.AuthStore.CheckAuthFulfilled` | bole-mobile/src/store/slices/authSlice.js:134-140 | No session leaves the state unchanged. A session signs in with its user and token. |
| `Validation.TrimStart` | bole-mobile/src/screens/auth/RegisterScreen.js:36 | The result is the suffix left after leading whitespace: all dropped characters are whitespace and the first kept one is not. |
| `Validation.TrimEnd` | bole-mobile/src/screens/auth/RegisterScreen.js:36 | The result is the prefix left before trailing whitespace: all dropped characters are whitespace and the last kept one is not. |
| `Validation.Trim` | bole-mobile/src/screens/auth/RegisterScreen.js:36 | The result is a slice of the input, and every character outside that slice is whitespace. A non-empty result neither starts nor ends with whitespace. Together these say that exactly the leading and trailing whitespace is removed. |
| `Validation.BlankIffTrimEmpty` | bole-mobile/src/screens/auth/RegisterScreen.js:36 | `!s.trim()` holds exactly when every character is whitespace. |
| `Validation.RunChars` | bole-mobile/src/screens/auth/RegisterScreen.js:47 | Every character inside a `[^\s@]+` run is neither whitespace nor '@'. |
| `Validation.EmailTestImpliesRegex` | bole-mobile/src/screens/auth/RegisterScreen.js:47 | A string passing the character-level test matches the pattern. |
| `Validation.RegexImpliesEmailTest` | bole-mobile/src/screens/auth/RegisterScreen.js:47 | A string matching the pattern passes the character-level test. |
| `Validation.EmailTestMatchesRegex` | bole-mobile/src/screens/auth/RegisterScreen.js:47 | The pattern accepts exactly the strings with no whitespace and exactly one '@' with text before it. After the '@' there must be a '.' that is neither the first nor the last character of the domain. |
| `Validation.IsEmail` | bole-mobile/src/screens/auth/RegisterScreen.js:47-51 | `emailRegex.test(email)` is true exactly for the strings in the language of `^[^\s@]+@[^\s@]+\.[^\s@]+$`. |
| `Validation.EmailError` | bole-mobile/src/screens/auth/RegisterScreen.js:48-56 | The error is one of: empty, 'Email is required', 'Please enter a valid email address'. |
| `Validation.EmailErrorMeaning` | bole-mobile/src/screens/auth/RegisterScreen.js:47-56 | The e-mail error is empty exactly when the address matches the pattern. It asks for an address exactly when the trimmed text is empty. |
| `Validation.PasswordError` | bole-mobile/src/screens/auth/RegisterScreen.js:59-67 | The error is one of: empty, 'Password is required', 'Password must be at least 6 characters'. |
| `Validation.PasswordErrorMeaning` | bole-mobile/src/screens/auth/RegisterScreen.js:59-67 | No error exactly when the password has at least 6 characters and is not all whitespace. 'Required' exactly when the trimmed text is empty. |
| `Validation.LowerChar` | bole-mobile/src/screens/auth/RegisterScreen.js:129 | Capital letters become the matching lower-case letter. Every other character is kept. |
| `Validation.ToLower` | bole-mobile/src/screens/auth/RegisterScreen.js:129 | The length is kept and no capital letters remain. Each capital A–Z becomes its own lower-case letter, at the same position, and every other character is kept. |
| `Validation.LowerCharKeepsSymbols` | bole-mobile/src/screens/auth/RegisterScreen.js:129 | Lower-casing a character never creates or removes whitespace, '@' or '.'. |
| `Validation.SameSymbolsKeepEmailTest` | bole-mobile/src/screens/auth/RegisterScreen.js:47 | The e-mail test depends only on where the whitespace, '@' and '.' characters are. |
| `Validation.LowerCaseKeepsEmailTest` | bole-mobile/src/screens/auth/RegisterScreen.js:129 | Lower-casing keeps both blankness and the e-mail test's verdict. |
| `Validation.LowerCaseKeepsEmailError` | bole-mobile/src/screens/auth/RegisterScreen.js:129 | Lower-casing while typing never changes the e-mail error. |
| `Validation.ToLowerIdempotent` | bole-mobile/src/screens/auth/RegisterScreen.js:129 | Lower-casing twice equals lower-casing once. |
| `RegisterScreen.RoleName` | bole-mobile/src/screens/auth/RegisterScreen.js:174-180 | The role sent is 'JOBSEEKER' or 'RECRUITER', and 'RECRUITER' exactly for the recruiter choice. |
| `RegisterScreen.UsernameError` | bole-mobile/src/screens/auth/RegisterScreen.js:36-44 | The error is one of: empty, 'Username is required', 'Username must be at least 3 characters'. |
| `RegisterScreen.UsernameErrorMeaning` | bole-mobile/src/screens/auth/RegisterScreen.js:36-44 | No error exactly when at least 3 characters (untrimmed) are typed and not all are whitespace. 'Required' exactly when the trimmed text is empty. |
| `RegisterScreen.ConfirmPasswordError` | bole-mobile/src/screens/auth/RegisterScreen.js:70-78 | The error is one of: empty, 'Please confirm your password', 'Passwords do not match'. |
| `RegisterScreen.ConfirmPasswordErrorMeaning` | bole-mobile/src/screens/auth/RegisterScreen.js:70-78 | No error exactly when the confirmation equals a password that is not all whitespace. 'Please confirm' exactly when the trimmed text is empty. |
| `RegisterScreen.RegisterForm.constructor` | bole-mobile/src/screens/auth/RegisterScreen.js:10-22 | Empty fields except the prefilled password '123456'. The role is JOBSEEKER and there are no errors. |
| `RegisterScreen.RegisterForm.EnterUsername` | bole-mobile/src/screens/auth/RegisterScreen.js:119 | The typed text is stored as is. |
| `RegisterScreen.RegisterForm.EnterEmail` | bole-mobile/src/screens/auth/RegisterScreen.js:129 | The typed text is stored lower-cased, with the same e-mail error as the typed text. |
| `RegisterScreen.RegisterForm.EnterPassword` | bole-mobile/src/screens/auth/RegisterScreen.js:140 | The typed text is stored as is. |
| `RegisterScreen.RegisterForm.EnterConfirmPassword` | bole-mobile/src/screens/auth/RegisterScreen.js:156 | The typed text is stored as is. |
| `RegisterScreen.RegisterForm.SelectRole` | bole-mobile/src/screens/auth/RegisterScreen.js:174-180 | The chosen role is stored. |
| `RegisterScreen.RegisterForm.CheckUsername` | bole-mobile/src/screens/auth/RegisterScreen.js:36-44 | Sets the username error to `UsernameError` and reports whether it is empty. |
| `RegisterScreen.RegisterForm.CheckEmail` | bole-mobile/src/screens/auth/RegisterScreen.js:47-56 | Sets the e-mail error to `EmailError` and reports whether it is empty. |
| `RegisterScreen.RegisterForm.CheckPassword` | bole-mobile/src/screens/auth/RegisterScreen.js:59-67 | Sets the password error to `PasswordError` and reports whether it is empty. |
| `RegisterScreen.RegisterForm.CheckConfirmPassword` | bole-mobile/src/screens/auth/RegisterScreen.js:70-78 | Sets the confirmation error to `ConfirmPasswordError` and reports whether it is empty. |
| `RegisterScreen.RegisterForm.ValidateForm` | bole-mobile/src/screens/auth/RegisterScreen.js:32-81 | All four checks run and each error is set. The result is true exactly when all four errors are empty. |
| `RegisterScreen.RegisterForm.HandleRegister` | bole-mobile/src/screens/auth/RegisterScreen.js:83-92 | A request is sent exactly when all four checks pass. It carries the inputs and the role name. The address then matches the pattern, the password has at least 6 characters and the confirmation equals it. Each of the four error fields shown is set to its check's message, whether or not a request is sent. |
| `LoginScreen.UsernameError` | bole-mobile/src/screens/auth/LoginScreen.js:40-45 | The error is empty or 'Username is required'. There is no length rule. |
| `LoginScreen.UsernameErrorMeaning` | bole-mobile/src/screens/auth/LoginScreen.js:40-45 | 'Required' exactly when the trimmed username is empty. Otherwise there is no error. |
| `LoginScreen.LoginForm.constructor` | bole-mobile/src/screens/auth/LoginScreen.js:10-14 | An empty username, the prefilled password '123456', and no errors. |
| `LoginScreen.LoginForm.EnterUsername` | bole-mobile/src/screens/auth/LoginScreen.js:86 | The typed text is stored as is. |
| `LoginScreen.LoginForm.EnterPassword` | bole-mobile/src/screens/auth/LoginScreen.js:96 | The typed text is stored as is. |
| `LoginScreen.LoginForm.ValidateForm` | bole-mobile/src/screens/auth/LoginScreen.js:37-58 | Both checks run and each error is set. The result is true exactly when both errors are empty. |
| `LoginScreen.LoginForm.HandleLogin` | bole-mobile/src/screens/auth/LoginScreen.js:60-64 | Credentials are sent exactly when the trimmed username and the trimmed password are non-empty and the password has at least 6 characters. They are the inputs unchanged. Both error fields shown are set to their check's message, whether or not credentials are sent. |
| `ForgotPasswordScreen.FailureText` | bole-mobile/src/screens/auth/ForgotPasswordScreen.js:43 | The error text is never empty. It is the server's message when that is non-empty, otherwise the fixed fallback. |
| `ForgotPasswordScreen.ResetForm.constructor` | bole-mobile/src/screens/auth/ForgotPasswordScreen.js:7-11 | Everything is empty and nothing is loading. |
| `ForgotPasswordScreen.ResetForm.EnterEmail` | bole-mobile/src/screens/auth/ForgotPasswordScreen.js:65 | The typed text is stored as is (no lower-casing on this form). |
| `ForgotPasswordScreen.ResetForm.ValidateForm` | bole-mobile/src/screens/auth/ForgotPasswordScreen.js:14-30 | The e-mail error is set to `EmailError`. The result is true exactly when that error is empty. |
| `ForgotPasswordScreen.ResetForm.BeginRequest` | bole-mobile/src/screens/auth/ForgotPasswordScreen.js:34-36 | Loading, with the error and the message cleared. |
| `ForgotPasswordScreen.ResetForm.FinishRequest` | bole-mobile/src/screens/auth/ForgotPasswordScreen.js:38-46 | Success shows the confirmation text and failure shows `FailureText`. Loading stops either way. |
| `ForgotPasswordScreen.ResetForm.HandleResetPassword` | bole-mobile/src/screens/auth/ForgotPasswordScreen.js:32-48 | The address is posted exactly when it matches the pattern. Afterwards loading is off and exactly one of message and error is set. When it is not posted, only the field error changes. |
| `ApplicationsScreen.StatusColor` | bole-mobile/src/screens/main/ApplicationsScreen.js:35-48 | The four known statuses get their colours from the table. Every other string gets '#757575'. |
| `ApplicationsScreen.StatusText` | bole-mobile/src/screens/main/ApplicationsScreen.js:50-63 | The four known statuses get their labels from the table. Every other string gets '未知'. |
| `ApplicationsScreen.TablesCoverKnownStatuses` | bole-mobile/src/screens/main/ApplicationsScreen.js:35-63 | Both tables cover exactly pending, interview, accepted and rejected. |
| `ApplicationsScreen.ColorIdentifiesStatus` | bole-mobile/src/screens/main/ApplicationsScreen.js:35-48 | Grey is used for unknown statuses only. No two known statuses share a colour. |
| `ApplicationsScreen.TextIdentifiesStatus` | bole-mobile/src/screens/main/ApplicationsScreen.js:50-63 | '未知' is used for unknown statuses only. No two known statuses share a label. Two statuses share a label exactly when they share a colour. |
| `ApplicationDetailScreen.StatusColor` | bole-mobile/src/screens/main/ApplicationDetailScreen.js:47-60 | The detail screen's own `getStatusColor` gives the list screen's colour for every status string. |
| `ApplicationDetailScreen.StatusText` | bole-mobile/src/screens/main/ApplicationDetailScreen.js:62-75 | The detail screen's own `getStatusText` gives the list screen's label for every status string. |
| `ApplicationDetailScreen.IsRecruiter` | bole-mobile/src/screens/main/ApplicationDetailScreen.js:9-10 | True exactly for a signed-in user whose role is the string "RECRUITER". The comparison is strict, so "recruiter" does not count. |
| `ApplicationDetailScreen.OfferedTransitions` | bole-mobile/src/screens/main/ApplicationDetailScreen.js:158-194 | A recruiter is offered interview or rejected on a pending application, and accepted or rejected on one in interview, in that order. Everyone else, and every other status, gets no buttons. |
| `ApplicationDetailScreen.OfferedTransitionsMoveForward` | bole-mobile/src/screens/main/ApplicationDetailScreen.js:158-194 | Every offered status is known, is not pending, and ranks above the current one. Final statuses and non-recruiters are offered nothing. |
| `ApplicationDetailScreen.RunRaisesRank` | bole-mobile/src/screens/main/ApplicationDetailScreen.js:158-194 | Along any sequence of button presses the rank rises by at least one per press. |
| `ApplicationDetailScreen.WorkflowTerminates` | bole-mobile/src/screens/main/ApplicationDetailScreen.js:158-194 | At most two presses can follow one another, and no status repeats along the way. |
| `ApplicationDetailScreen.ApplicationDetail.constructor` | bole-mobile/src/screens/main/ApplicationDetailScreen.js:8-10 | `isRecruiter` is `user?.role === 'RECRUITER'`, and nothing is shown yet. |
| `ApplicationDetailScreen.ApplicationDetail.Load` | bole-mobile/src/screens/main/ApplicationDetailScreen.js:14-16 | The loaded application is shown. |
| `ApplicationDetailScreen.ApplicationDetail.HandleStatusChange` | bole-mobile/src/screens/main/ApplicationDetailScreen.js:77-80 | Only the status changes. The id and every other field are kept. |
| `ApplicationDetailScreen.ApplicationDetail.Actions` | bole-mobile/src/screens/main/ApplicationDetailScreen.js:82-84 | No buttons while nothing is loaded, since the screen renders `null`, and none for a non-recruiter. Otherwise the offered transitions of the shown status are given, and each ranks above that status. |
| `ApplicationDetailScreen.ApplicationDetail.PressAction` | bole-mobile/src/screens/main/ApplicationDetailScreen.js:158-194 | Pressing a shown button sets that status and keeps the application's id and details. The new status ranks above the old one and is no longer offered. |

## Left out

- Network, socket and storage I/O: the thunk bodies, the socket singleton and its events, and AsyncStorage reads and writes. Their results are parameters of the reducer methods.
- The clock: `new Date().toISOString()` in the send thunk is outside the reducers.
- `JSON.parse` of the stored user is taken as given: `AuthSlice.StoredSession` receives the parsed user. Stored text that parses to `null` is not modelled.
- JSON values are modelled as strings. A user, job or application is a map from field names to strings, next to the fields the logic reads (`id`, `status`). The `===` test on ids is integer equality.
- Optional values: `null` and `undefined` are both `None`.
- `Validation.LowerChar`: does not model full Unicode `toLowerCase`, only A–Z. Other case mappings (accented capitals, for instance) are kept as typed.
- `Validation.ToLower`: lowers through `Validation.LowerChar`, so it has the same A–Z-only gap.
- `RegisterScreen.RegisterForm.EnterEmail`: stores `Validation.ToLower` of the typed text, so it has the same A–Z-only gap.
- Lengths: JavaScript's `length` counts UTF-16 code units, while the model counts characters. The two differ only for characters outside the Basic Multilingual Plane.
- `ChatSlice.UpdateEveryList`: the order in which `Object.keys` visits conversations is left open, which is sound because each list is updated independently.
- Immer's copy-on-write: reducers are modelled with value semantics. Moving a conversation and setting its `lastMessage` does not touch `currentConversation`, which is what Immer produces.
- `ApplicationDetailScreen.ApplicationDetail.HandleStatusChange`: requires an application on screen. The buttons that call it are rendered only then (the screen returns `null` without one). The `{...null, status}` object that would otherwise result is not modelled.
- The mock data the two application screens load in their effects is not part of this model. `Load` takes the application as a parameter.
- The React render cycle: `setState` updates are applied in place, in the order the handlers make them. No handler reads a field it set in the same call, so the end state is the same.
- Rendering, navigation, styles, the other screens (mock data or pass-through API calls), `User.js`, and the Spring backend (whose status enum has no 'accepted') are not part of this model.
