# project_manage in Dafny

A model of the data-handling core of a small personal project manager. Users
keep **plans**, **projects** (each optionally `planId`-linked to a plan),
**tasks** (each `projectId`-linked to a project) and **records** (uploaded
files). The model covers:

- the two browser-side stores of these four collections: the server-backed
  `ServerDataManager` (`server_store.dfy`) and the browser-only globals of
  `script.js` (`browser_store.dfy`), with their different deletion rules
  (unlink plus status promotion versus plain clearing; cascade versus no
  cascade), save fallbacks, loading, import and restore, export, and the
  seeding of default records;
- the pure rules of the page (`ui_rules.dfy`, `search.dfy`): the three most
  recent items, progress percentages, the deadline class ladder, plan-select
  retention, the image-upload guards and the search/filter predicates,
  including the swap-and-restore of the global collections while filtering;
- the session-file server (`server_py.dfy`): the username and password
  rules, `Cookie` header parsing, the four-hour session table with its IP
  check, the login validation order, logout and the authenticated save;
- the authenticating server (`auth_server.dfy`): its in-memory session table
  with a one-hour sliding expiry, the ordered checks of `is_authenticated`,
  the sweep of expired sessions and logout;
- the save handler both servers share (`payload.dfy`): the 50 MiB guard, the
  nulling of images over 5 MiB in plans and projects, and the writing of
  exactly the collections present, with Python's behaviour on payloads of
  the wrong shape (the exceptions that turn into 500);
- the line-oriented `users.txt` editor (`user_file.dfy`): add, exists,
  verify, list, remove and change password over the file's lines;
- the Node backup helper (`backup.dfy`): the snapshot it writes twice, the
  listing of backup files ordered by the supplied time key, the retention
  of the ten first by that key, and loading.

JSON values are the datatype `Js.Json`; `Js.Option.None` stands for
`undefined`. Strings are `seq<char>`. Every outside influence is a
parameter:

- the clock (an integer or an ISO string);
- generated ids, session tokens and password hashes;
- the client address;
- the outcome of each `fetch`;
- whether a `localStorage.setItem` or a file write succeeds;
- the serialised payload size;
- the order in which a directory lists its files, and the time a backup
  name decodes to.

## Model

| member | source | states |
|---|---|---|
| ServerStore.ServerDataManager.constructor | server_script.js:4-12 | A new manager holds four empty collections. |
| ServerStore.RouteOf | server_script.js:53-95 | A payload over 10 MiB, or a network failure, takes the local-storage fallback. A non-ok reply resolves to false. An ok reply resolves to true exactly when its body says `status: 'success'`. |
| ServerStore.SaveFallbackOnly | server_script.js:79-94 | Local storage changes only on the fallback path. A non-ok reply never touches it. |
| ServerStore.ServerDataManager.SaveToServer | server_script.js:53-95 | The result and the new local-storage item are those of the route the save takes. |
| ServerStore.ServerDataManager.SaveToLocalStorage | server_script.js:116-130 | The item becomes the snapshot of the four collections when the write succeeds. Otherwise it is unchanged and the result is false. |
| ServerStore.FromLocal | server_script.js:98-114 | A present, parseable, non-null item installs each collection as the array it holds, or `[]`; anything else reports false. |
| ServerStore.LocalRoundTrip | server_script.js:116-130 | Loading what a local save wrote gives back the same four collections. |
| ServerStore.ServerDataManager.LoadFromLocalStorage | server_script.js:98-114 | On success the collections are those `FromLocal` gives. On failure they are unchanged. |
| ServerStore.FromServer | server_script.js:21-50 | An object reply installs each of the four collections as its array field, or `[]` when that field is not an array. An array body installs four empty collections. A failed fetch, a non-ok reply, an unparsable body or any other body defers to the local-storage load. |
| ServerStore.ServerDataManager.LoadFromServer | server_script.js:21-50 | The collections after a load are those `FromServer` gives. A load that fails changes nothing. |
| ServerStore.Stamp | server_script.js:133-138 | The added entity carries the fresh id and the creation time. Every other field is the caller's, and it has no keys beyond the caller's, `id` and the date key. |
| ServerStore.ServerDataManager.AddPlan | server_script.js:133-138 | Exactly one stamped plan is appended, and the earlier plans are unchanged. The save result is that of `saveToServer`. |
| ServerStore.ServerDataManager.AddProject | server_script.js:168-173 | Exactly one stamped project is appended, and the others are unchanged. |
| ServerStore.ServerDataManager.AddTask | server_script.js:195-200 | Exactly one stamped task is appended, and the others are unchanged. |
| ServerStore.ServerDataManager.AddRecord | server_script.js:220-225 | Exactly one record is appended, its own id overwritten by the fresh one and stamped with `uploadDate`. |
| ServerStore.MergeById | server_script.js:140-147 | The length is preserved. An absent id changes nothing. Only the first element with the id changes, to the merge of its fields with the new ones. |
| ServerStore.MergeKeepsId | server_script.js:140-147 | A merge whose data carries no `id` keeps the element's id. |
| ServerStore.ServerDataManager.UpdatePlan | server_script.js:140-147 | An absent id gives false, with the plans and the storage unchanged. Otherwise the found plan is merged and saved. |
| ServerStore.ServerDataManager.UpdateProject | server_script.js:175-182 | The same merge-or-false rule as plans, for projects. |
| ServerStore.ServerDataManager.UpdateTask | server_script.js:202-209 | The same merge-or-false rule as plans, for tasks. |
| ServerStore.Unlinked | server_script.js:149-166 | A project of the deleted plan gets `planId: ''`, and a `planning` status becomes `active`. A project of another plan is untouched, and no other field changes. |
| ServerStore.ServerDataManager.DeletePlan | server_script.js:149-166 | An absent id changes nothing and gives false. Otherwise exactly the first plan with the id goes, and the number of projects is preserved, each project being `Unlinked`. |
| ServerStore.ServerDataManager.DeleteProject | server_script.js:184-193 | Every task with the project's id goes and the other tasks keep their order; then exactly the first project with the id goes. |
| ServerStore.ServerDataManager.DeleteTask | server_script.js:211-218 | An absent id changes nothing. Otherwise exactly the first task with the id goes. |
| ServerStore.ServerDataManager.DeleteRecord | server_script.js:227-251 | An absent id gives false with no change. A failed save puts the record back at its index, so the records equal the pre-state. A successful save leaves exactly that record removed. |
| Js.InsertRemoved | server_script.js:241-246 | Reinserting a removed element at its index restores the array. |
| ServerStore.ServerDataManager.ImportData | server_script.js:281-302 | The four collections are replaced only when the parsed file has all four keys. Otherwise nothing changes and the result is false. |
| ServerStore.ExportDoc | server_script.js:258-278 | The export holds the four collections unchanged, a timestamp and version `1.0.0`. |
| ServerStore.DefaultFiles | server_script.js:362-381 | Two stock PDF records are offered, with string names. |
| ServerStore.SeedRunCovers | server_script.js:385-394 | After seeding, every offered default is present by name or id. |
| ServerStore.SeedRunNoop | server_script.js:385-394 | When every default is already present, seeding adds nothing and saves nothing. |
| ServerStore.SeedTwice | server_script.js:361-401 | A second seeding that offers the same names after a first one changes nothing. The stamped records keep the offered names, even though `addRecord` replaces their ids. |
| ServerStore.DefaultOffersAgree | server_script.js:362-381 | The defaults offered at two different times are the same offers. |
| ServerStore.AddDefaultRecords | server_script.js:361-401 | The records and the storage after the loop are those of offering the two defaults in turn, each added only when absent. |
| ServerStore.LoadPage | server_script.js:337-357 | The page load installs what the server load gives. It seeds the defaults exactly when the loaded records are empty. A failed load changes nothing. |
| BrowserStore.PlanInput.Fields | script.js:450-458 | The plan form submits seven fields, never `id` or `createdAt`. |
| BrowserStore.ProjectInput.Fields | script.js:753-762 | The project form submits eight fields, never `id` or `createdAt`. |
| BrowserStore.TaskInput.Fields | script.js:1329-1335 | A task's form carries the viewed project's id as `projectId`, never `id` or `createdAt`. |
| BrowserStore.Created | script.js:466-470 | A new entity has the generated id (unless the form sets one), the form's fields and `createdAt`. |
| BrowserStore.Submitted | script.js:460-472 | Creating appends exactly one element and leaves the rest as they were. Editing preserves the length: the matched element becomes the edited item merged with the form, and an unmatched edit changes nothing. |
| BrowserStore.EditKeepsIdentity | script.js:460-463 | An edit keeps the replaced element's `id` and the edited item's `createdAt`. |
| BrowserStore.BrowserApp.SubmitPlan | script.js:447-481 | The plans become `Submitted`, then they are saved. The plan being edited is forgotten only when the save succeeds. |
| BrowserStore.BrowserApp.SubmitProject | script.js:750-785 | The same submit rule as plans, for projects. |
| BrowserStore.BrowserApp.SubmitTask | script.js:1325-1356 | Without a viewed project nothing happens. Otherwise the same submit rule applies, for tasks. |
| BrowserStore.Cleared | script.js:488-492 | A project of the deleted plan gets `planId: ''`. Everything else stays, including its status. |
| BrowserStore.ClearedKeepsStatus | script.js:488-492 | Unlike the server-backed store, a cleared project keeps a `planning` status. |
| BrowserStore.BrowserApp.DeletePlan | script.js:484-500 | Once confirmed, every plan with the id goes and the project count is preserved, with exactly the referencing projects cleared. Unconfirmed, nothing changes. |
| BrowserStore.BrowserApp.DeleteProject | script.js:788-796 | Every project with the id goes. No task is removed with it: there is no cascade. |
| BrowserStore.BrowserApp.DeleteTask | script.js:1359-1368 | Every task with the id goes, once confirmed. |
| BrowserStore.BrowserApp.DeleteRecord | script.js:941-948 | Every record with the id goes, once confirmed. |
| BrowserStore.CycleIndex | script.js:1376 | The index is that of the status in the cycle, or -1 exactly when the status is not listed. |
| BrowserStore.NextStatus | script.js:1375-1379 | The next status is always one of the four. |
| BrowserStore.NextStatusSteps | script.js:1375-1379 | The cycle is pending, in-progress, completed, blocked, then pending again. An unlisted status becomes pending. |
| BrowserStore.CycleOfFour | script.js:1375-1379 | Four steps from a listed status return to it. |
| BrowserStore.BrowserApp.CycleTaskStatus | script.js:1371-1394 | The first task with the id, if there is one, moves to the next status and nothing else changes. An unknown id changes nothing. |
| BrowserStore.AppendMissing | script.js:973-977 | The existing records stay, in order, as a prefix. Only offered files are appended. |
| BrowserStore.AppendMissingCovers | script.js:973-977 | Afterwards, every offered name is taken. |
| BrowserStore.AppendMissingNoop | script.js:973-977 | When every offered name is taken, nothing is appended. |
| BrowserStore.ExistingTwice | script.js:951-980 | A second run, with fresh ids and time, adds nothing. |
| BrowserStore.BrowserApp.AddExistingRecords | script.js:951-980 | The records become `AppendMissing` of the two offered PDFs, and are then saved. |
| BrowserStore.ExportRecord | script.js:988-994 | An exported record has only `id`, `name`, `size`, `type` and `uploadDate`, each as the record had it. |
| BrowserStore.ExportRecords | script.js:988-994 | The export has one projection per record, with the same count and order. |
| BrowserStore.ExportDoc | script.js:983-996 | The export holds the plans, projects and tasks unchanged, the projected records and `exportDate`. |
| BrowserStore.BrowserApp.RestoreFromFile | script.js:83-111 | All four collections are replaced only when the file has all four keys. Otherwise they are unchanged. |
| BrowserStore.BrowserApp.BackupFileUpload | script.js:882-911 | With no file, or with existing plans or projects and no confirmation, nothing changes. Past that gate an incomplete file changes nothing and gives false. A complete one replaces all four collections, and the result and the storage item are those of the local save. |
| BrowserStore.SampleData | script.js:1037-1095 | The first-visit sample has one plan, two projects of that plan and two tasks of the first project. |
| BrowserStore.SampleLinked | script.js:1037-1095 | Every sample project names the sample plan, and every sample task names an existing project. |
| BrowserStore.BrowserApp.LoadFromLocalStorage | script.js:1020-1097 | With no item, the sample data is installed. An unparsable or null item empties all four collections. A stored object installs its arrays, with missing fields becoming `[]`. |
| BrowserStore.BrowserApp.SaveToLocalStorage | script.js:1010-1017 | The item becomes the snapshot when the write succeeds. Otherwise it is unchanged. |
| Search.FilterOrThrow | script.js:294-300 | The filter throws exactly when some item's reading throws. Otherwise the result is the filter of the items by the verdict. |
| Search.VerdictMeaning | script.js:294-300 | An item is kept exactly when the term is in its name, or else in its non-empty description, and every filter is `all` or equal to the item's field. |
| Search.FilterMeaning | script.js:290-303 | The filter throws exactly when some item throws. Otherwise its result is an order-preserving subsequence holding exactly the matching items. |
| Search.Kept | script.js:294-300 | A kept item is one of the input's, hits the term and passes the filters. |
| Search.ProjectFilterMeaning | script.js:799-814 | A kept project hits the lower-cased term, and its status and category both match or are `all`. |
| Search.EmptySearchHits | script.js:294-296 | The empty search hits every item whose name is a string. |
| Js.FilterIsSubsequence | script.js:294-300 | Filtering yields a subsequence of the input, in its order. |
| UiRules.RecentMeaning | ui_functions.js:29-31 | The recent list has at most three items, the last ones in reverse order, and is empty exactly when the source is empty. |
| UiRules.RoundPercentBounds | ui_functions.js:141-146 | The rounded percentage is between 0 and 100. It is 0 with nothing completed and 100 when everything is completed. |
| UiRules.PlanProgress | ui_functions.js:141-146 | Plan progress is 0 with no related projects, 100 when all are completed, and never above 100. |
| UiRules.TaskProgress | ui_functions.js:242-245 | Task progress follows the same bounds over the project's tasks. |
| UiRules.AllTasksDone | ui_functions.js:242-245 | When every task is completed the progress is 100, and the completed count never exceeds the total. |
| UiRules.DeadlineClass | ui_functions.js:268-283 | The class is `overdue` below 0 days, `urgent` for 0 to 3, `warning` for 4 to 7, and empty beyond that or with no deadline. |
| UiRules.DeadlineMonotone | ui_functions.js:268-283 | A nearer deadline is never shown as less urgent. |
| UiRules.SelectedPlanMeaning | ui_functions.js:375-391 | The previous selection is kept exactly when it is non-empty and some plan has it as its id. Otherwise it is cleared. |
| UiRules.Page.UpdateProjectPlanOptions | ui_functions.js:375-391 | The select ends with `SelectedPlan` of its previous value. |
| UiRules.ImageCheck | ui_functions.js:560-573 | A file is accepted exactly when its type starts with `image/` and its size is at most 10 MiB. The type is checked first. |
| UiRules.ImageAfter | ui_functions.js:560-582 | A rejected upload, or an accepted one whose image never loads, leaves the image data as it was. Otherwise the data is the compressor's output. |
| UiRules.Page.HandlePlanImageUpload | ui_functions.js:560-582 | The verdict is `ImageCheck`'s. The plan image changes only for an accepted file whose compression calls back, and then to its output. |
| UiRules.Page.HandleProjectImageUpload | ui_functions.js:584-606 | The verdict is `ImageCheck`'s. The project image changes only for an accepted file whose compression calls back, and then to its output. |
| UiRules.Page.PlanCards | ui_functions.js:117-146 | Each plan card shows a progress of at most 100. |
| UiRules.Page.ProjectCards | ui_functions.js:209-245 | Each project card shows a progress of at most 100. |
| UiRules.Page.FilterPlans | ui_functions.js:509-531 | The global plans are as they were before the temporary swap. The grid shows the filter's result, or is unchanged when the filter throws. |
| UiRules.Page.FilterProjects | ui_functions.js:533-557 | The same swap-and-restore, for projects. |
| ServerPy.TrailingNewlineAccepted | server.py:46-50 | As written, the username check accepts `"abc\n"`, which the intended check refuses. |
| ServerPy.UsernameReadingsAgree | server.py:46-50 | On names that do not end in a newline, the validation as written and the intended one agree. |
| ServerPy.StrippedNameUnaffected | server.py:312-318 | On a stripped name, the two readings agree. |
| ServerPy.PasswordCheck | server.py:52-57 | On a string, the password check is `ValidPassword`. Only a string can pass. |
| ServerPy.DefaultPasswordRejected | server.py:81 | The seeded password `123456` fails the password rule. |
| ServerPy.JarIsLastValue | server.py:175-184 | Reading the cookie dictionary finds the last piece naming the cookie: a later duplicate overrides. |
| ServerPy.PieceWithoutEquals | server.py:181 | A piece without `=` sets nothing. |
| ServerPy.ValueKeepsEquals | server.py:180-183 | A piece splits at its first `=`, so the value keeps any later `=`; the key and the value are trimmed. |
| ServerPy.ReadJar | server.py:179-183 | The loop builds exactly the cookie dictionary of the pieces. |
| ServerPy.GetCookie | server.py:175-184 | The cookie read is the last value the header gives its name. |
| ServerPy.CheckSession | server.py:114-137 | An unknown id gives nothing. An expired session, or one bound to another address, is deleted. Otherwise only `last_activity` changes. No other session changes. |
| ServerPy.FreshSessionLifetime | server.py:139-154 | A new session is accepted from its own address for four hours and refused one second later. |
| ServerPy.CheckKeepsExpiry | server.py:133-136 | A check does not move the expiry. |
| ServerPy.SessionFile.GetSession | server.py:114-137 | The result and the new table are those of `CheckSession`. |
| ServerPy.SessionFile.CreateSession | server.py:139-154 | Exactly one session is added, expiring four hours after creation. |
| ServerPy.SessionFile.DeleteSession | server.py:156-161 | Only that key goes. |
| ServerPy.SessionFile.GetCurrentUser | server.py:163-173 | The user is that of the `session_id` cookie's valid session, looked up in the user table. |
| ServerPy.Screen | server.py:312-322 | A refusal is a 400 or a 500. A name let through is a valid stripped username, and the body then carries a valid password string. |
| ServerPy.ScreenAdmitsExactly | server.py:312-322 | The body passes the checks exactly when the stripped `username` is valid and `password` is a string the password rule accepts. The name let through is that stripped name. |
| ServerPy.Account | server.py:328-341 | The answer is 200, 401 or 500. It is 200, naming the user, exactly when the user is in the table with a record holding a `password_hash` and the password check passes. It is 500 exactly when a truthy record is not such an object. |
| ServerPy.LoginValidatesFirst | server.py:316-322 | A malformed username, then a malformed password, gives 400 before any user lookup, whatever the table holds. |
| ServerPy.LoginNeedsValidInput | server.py:305-363 | A 200 needs a valid stripped username, a valid password and a user the table holds. |
| ServerPy.DefaultAccountLocked | server.py:76-99 | The seeded account can never log in. |
| ServerPy.SessionFile.HandleLogin | server.py:305-363 | The reply is `Login`'s. Exactly a 200 creates a session for the user let in; any other reply leaves the sessions unchanged. |
| ServerPy.SessionFile.HandleLogout | server.py:365-384 | The presented session goes and the others stay. |
| ServerPy.SessionFile.HandleSaveData | server.py:443-485 | Without a current user the reply is 401 and nothing is written. Otherwise the shared save handler answers. The session table afterwards is the one `CheckSession` leaves for the cookie's session id, and unchanged without one. |
| Payload.StripItem | server.py:463-471 | An item with an image of more than 5 MiB characters gets `image: None`. Every other item is unchanged. It raises exactly where Python would. |
| Payload.StripItems | server.py:466-471 | The pass succeeds exactly when every item does, and it maps each item to its stripped form. |
| Payload.StripList | server.py:466-471 | The loop computes `StripItems`. |
| Payload.StripImages | server.py:463-471 | The loop over `plans` and `projects` computes `StripKeys`. |
| Payload.StripListMeaning | server.py:463-471 | Plan and project items are changed one by one: an oversized image becomes `None`, and every other item stays as it was. |
| Payload.StripStepKeepsOthers | server.py:463-471 | The image pass keeps every other key of the payload unchanged, tasks and records included. |
| Payload.WriteCollections | server.py:474-476 | The loop over the collection names finishes, or stops at the first raise, exactly as `WriteKeys` says, and writes what it lists, in order. |
| Payload.WriteKeysOnlyPresent | server.py:474-476 | Only collections present in the payload are written, with the value it holds. |
| Payload.WriteKeysComplete | server.py:474-476 | On an object, every present collection is written, in order, and nothing else. |
| Payload.OversizeRejected | server.py:455-457 | A Content-Length over 50 MiB gives 413 and writes nothing. |
| Payload.AcceptedObject | server.py:443-485 | An accepted object payload gives 200 and writes exactly its present collections, after the image pass. |
| Payload.HandleSaveData | auth_server.py:313-355 | The handler's reply is `Respond` of the length and the body. |
| AuthServer.PairKeepsInnerSpaces | auth_server.py:82-85 | An item splits at its first `=` and only its outer ends are trimmed, so spaces around the `=` stay in the key and the value. |
| AuthServer.ValueNotStripped | auth_server.py:82-85 | The cookie parser of this server does not trim around `=`, so `"a= b"` sets `" b"`. |
| AuthServer.ParseCookies | auth_server.py:81-85 | The loop builds exactly the cookie dictionary of the header. |
| AuthServer.Check | auth_server.py:73-108 | The conditions are examined in order: no cookie, no token, unknown token, expired (deleted), other address (deleted). Success renews the expiry to now + 3600. No other session changes. |
| AuthServer.CheckTouchesOnlyToken | auth_server.py:73-108 | Every session but the presented one is kept as it was. |
| AuthServer.SlidingExpiry | auth_server.py:107 | After a successful check, the same client is let in for another hour. |
| AuthServer.FreshSession | auth_server.py:62-71 | A new session admits its own address until creation + 3600, and is expired after. |
| AuthServer.Sessions.CreateSession | auth_server.py:62-71 | Exactly one entry is added, expiring an hour after creation. |
| AuthServer.Sessions.IsAuthenticated | auth_server.py:73-108 | The answer and the new table are those of `Check`. |
| AuthServer.Sessions.CurrentUser | auth_server.py:110-124 | The user is that of the presented token's session, with no expiry or address check. |
| AuthServer.Sessions.HandleLogout | auth_server.py:281-285 | The presented token goes if the table holds it. The others stay. |
| AuthServer.Live | auth_server.py:404-416 | The sweep keeps exactly the sessions with `now <= expires`, unchanged. |
| AuthServer.LiveIdempotent | auth_server.py:404-416 | Sweeping twice at the same time removes nothing more. |
| AuthServer.RenewedSurvivesSweep | auth_server.py:107 | A session just renewed survives a sweep at that time. |
| AuthServer.Sessions.CleanupExpiredSessions | auth_server.py:404-416 | The two loops leave exactly `Live` of the table. |
| AuthServer.Sessions.HandleSaveData | auth_server.py:196-212 | Without authentication the reply is a 302 and nothing is written. Otherwise the shared handler answers. |
| UserFile.ConcatLines | user_manager.py:108-125 | Joining the lines a file is read as gives the file back. |
| UserFile.LinesAppend | user_manager.py:42-43 | Appending a line to a terminated file adds exactly that line. |
| UserFile.Usernames | user_manager.py:77-97 | A name is listed exactly when some entry line (no `#`, has `:`) names it. |
| UserFile.ListedIffExists | user_manager.py:48-59 | A user is listed exactly when `user_exists` finds it. |
| UserFile.UsersFile.UserExists | user_manager.py:48-59 | The result is true exactly when some entry's text before the first `:` is the name. |
| UserFile.ScanForEntry | user_manager.py:70-75 | The loop answers true exactly when some entry admits the name with the hash. |
| UserFile.UsersFile.VerifyUser | user_manager.py:61-75 | The result is true exactly when some entry, stripped and split at its first `:`, has both the name and the hash. |
| UserFile.UsersFile.ListUsers | user_manager.py:77-97 | The list is the usernames in file order, or nothing when there is no file. |
| UserFile.UsersFile.AddUser | user_manager.py:29-46 | An empty name or password, or an existing user, changes nothing. Otherwise exactly one `name:hash` line is appended. |
| UserFile.AddedExists | user_manager.py:29-46 | A storable name (non-empty, no leading `#`, no `:`, `\n` or `\r`) is found after its entry is appended to a terminated file, and the file gains exactly that line. |
| UserFile.ColonNameUnfindable | user_manager.py:29-59 | A name with `:` is appended, but `user_exists` then finds only its prefix. |
| UserFile.UsersFile.AddUserChecked | user_manager.py:29-46 | The same as `AddUser`, but refusing a name that is not storable. A name it adds to a terminated file is found afterwards. |
| UserFile.CommentNameUnfindable | user_manager.py:29-60 | As written, adding `#a` writes `#a:h`, which `user_exists` skips as a comment, so `#a` is not found. |
| UserFile.RemovedMeaning | user_manager.py:99-127 | Removal keeps every comment and every other line, in order, and removes every entry of the user. It shortens the file exactly when the user exists. |
| UserFile.UsersFile.RemoveUser | user_manager.py:99-127 | With no matching entry, nothing is rewritten and the result is false. Otherwise the file becomes the kept lines. |
| UserFile.EntryReadsBack | user_manager.py:145 | A written `name:hash` line names the user and verifies with that hash. |
| UserFile.ChangedMeaning | user_manager.py:129-153 | The file keeps its number of lines. Every entry of the user becomes `name:newhash`, so the user verifies with the new hash. Every other line stays as it was, in place. |
| UserFile.UsersFile.ChangePassword | user_manager.py:129-153 | An absent user gives false and no change. Otherwise the file becomes the changed lines. |
| Backup.FixedFileIsListed | data_backup.js:61 | The fixed `projects_backup.json` also passes the backup-name filter. |
| Backup.Insert | data_backup.js:62-66 | An insertion adds exactly one element. |
| Backup.InsertKeepsOrder | data_backup.js:62-66 | Inserting into a newest-first list keeps it newest first. |
| Backup.SortIsOrdered | data_backup.js:62-66 | The sort yields a newest-first list. |
| Backup.BackupFilesMeaning | data_backup.js:58-73 | The listing is newest first and holds exactly the `projects_*.json` names, each as often as listed. |
| Backup.Snapshot | data_backup.js:22-26 | The snapshot has the data's fields plus `timestamp` and `version: '1.0.0'`. |
| Backup.Dashed | data_backup.js:31 | Every `:` and `.` of the time becomes `-`. |
| Backup.StampedIsBackup | data_backup.js:31-32 | Every timestamped copy is a backup name, so retention governs it. |
| Backup.Loaded | data_backup.js:44-55 | A missing or unparsable file gives null. Otherwise the parsed content is returned. |
| Backup.SaveThenLoad | data_backup.js:20-55 | A snapshot that was written is read back, with its version. |
| Backup.DataBackup.SaveData | data_backup.js:20-40 | The same snapshot goes to the fixed file and to the timestamped file. A failed write stops the save. |
| Backup.DataBackup.LoadData | data_backup.js:44-55 | The result is `Loaded` of the directory. |
| Backup.DataBackup.CleanOldBackups | data_backup.js:76-90 | With ten or fewer backups nothing goes. Otherwise exactly the entries after position ten of the sorted list are deleted (`Survivors`). |
| Backup.RetainsTenNewest | data_backup.js:76-90 | On a listing that names each file once: after the cleanup every remaining backup is among the ten first by the time key, each of those ten remains, and every non-backup file remains. |

## Left out

- **The DOM and rendering.** HTML templates, modals, notifications and page
  switching are not modelled. Only what a grid shows (cards with their
  progress, or one of the two messages) is kept.
- **Asynchronous interleaving.** Overlapping saves, the threaded servers, and
  their shared `sessions` dictionary are not modelled. Every operation runs
  to completion on its own.
- **Foreign calls.** Hashing (SHA-256, PBKDF2), `secrets.token_urlsafe`,
  `generateId`, the clocks, the client address, JSON serialisation and
  parsing, and file and network I/O all enter as parameters.
- **`syncGlobalVariables` and the page's `saveToLocalStorage` wrapper.** The
  page's globals alias the manager's arrays, and the model keeps one copy of
  each collection. The wrapper is then `SaveToServer`.
- **Truthy non-array collections.** A collection field holding a truthy
  non-array value (restored, imported, or loaded from local storage) is
  stored as it is by the page. The model stores `[]` (`Js.AsArray`).
- **`null` elements.** A `null` element in a collection makes a property
  access throw. The model reads it as an object with no fields.
- **`Js.StrictEq`:** object identity is not modelled; two objects or arrays
  are never strictly equal.
- **Spreading an array into `saveData`'s snapshot.** A non-object `data`
  argument, which would spread its indices, contributes no fields.
- **`UiRules.RoundPercent`:** exact integer rounding of `c * 100 / t` stands
  in for `Math.round` on floats. Only the bounds and the 0 and 100 cases are
  claimed.
- **`Text.Lower`:** lower-cases ASCII letters only; Unicode case mapping is
  not modelled.
- **Day counts.** `getDaysRemaining` (date arithmetic) is not modelled. The
  deadline class takes the day count as input.
- **`compressImage`, `formatFileSize`:** the canvas and floating-point work is not modelled. What the compressor's callback delivers, or that it never runs, is the `compressed` input of `ImageAfter`.
- **`Backup.BackupFiles`:** the time a backup name decodes to is a parameter.
  The date parsing that makes `projects_backup.json` an invalid date is not
  modelled, so where that file sorts is not claimed.
- **`Backup.BackupFilesMeaning`:** ordering is claimed only for the time
  key supplied. The source decodes a name by turning every `-` into `:`,
  the date's own dashes included. Whether that yields valid dates at all is
  not modelled.
- **`Backup.DataBackup.CleanOldBackups`:** a failed deletion is not
  modelled. The listing is taken to name each directory entry once, as a
  directory listing does (`Distinct`).
- **Users file reads.** The user file is read as lines split after each
  newline. Python's universal newlines, which also end a line at `\r\n`
  or at a lone `\r`, are not modelled; `StorableName` refuses a `\r` in a
  name for that reason.
  `remove_user` and `change_password` read the file once, then rewrite it.
- **`ServerPy.Login`:** the `verify_password` call is a boolean input.
- **Session-file reads and writes.** `load_json`/`save_json` failures of the
  session file are not modelled.
- **auth_server.py `verify_user`:** line for line the same loop as
  user_manager.py's, so it is modelled once, as
  `UserFile.UsersFile.VerifyUser`. The rest of that server's `handle_login`
  (the JSON reply and the cookie) is not modelled.
- **Out of scope.** The interactive menu and `init_users_file` of
  user_manager.py, the service managers, server_stable.py, auto_save.py and
  init_database.py are not part of this model.

Two places in server.py where the comments and the code differ are
modelled as the code does them:

- the code keeps a session's expiry fixed on activity (`CheckKeepsExpiry`),
  although the comment speaks of renewal;
- the seeded `project_manager` account, whose password is `123456`, fails
  the password rule, so it can never log in (`DefaultAccountLocked`).

## Findings

| source | as written | input that shows it | evidently intended | confidence | as-written member | corrected member |
|---|---|---|---|---|---|---|
| server.py:46-50 | The username pattern is anchored with `$` under `re.match`, and `$` also matches just before a final newline. | `"abc\n"` passes. | Every character must be a letter, digit or underscore (a whole-string match). | not executed | ServerPy.TrailingNewlineAccepted | ServerPy.UsernameReadingsAgree |
| user_manager.py:29-46 | `add_user` accepts any non-empty username, including one with `:`. Its line is then read back under the text before the first `:`. | Adding `a:b` with hash `h` writes `a:b:h`: user `a:b` still does not exist, user `a` does, and `a:b` can be added again. Likewise `#a` is written and then skipped as a comment (`CommentNameUnfindable`). | A stored name is non-empty, does not start with `#` and holds no `:`, `\n` or `\r`, so that it is found once added. | not executed | UserFile.ColonNameUnfindable | UserFile.AddedExists |

The corrected definitions are:

- **Usernames.** `ServerPy.ValidUsername` is the whole-string check, and
  `ServerPy.Login` uses it. Because login strips the name first, the two
  readings agree there (`StrippedNameUnaffected`).
- **User file.** `UserFile.UsersFile.AddUserChecked` refuses names that are
  not `StorableName`. For such names, `UserFile.AddedExists` proves that
  they are found once added to a file whose last line is complete, and
  `AddUserChecked` states this of its own result.
