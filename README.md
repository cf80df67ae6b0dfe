# Phone-parts storefront: a Dafny model of its core

This project models the logic behind a React Native storefront for phone
spare parts, with a todo list on the side. It covers:

- **The order wizard** (`OrderContext`). The customer picks a part category,
  then a phone model, then a vendor offer, then a quantity. The model and
  vendor lists are fetched as the selections change. The total price follows
  the offer and the quantity.
- **The quantity stepper** (`QuantitySelector`) and **the model search box**
  (`ModelSearch`).
- **The mock catalog database** (`MockDatabase`) and **the catalog API**
  (`Products`). The database is a singleton whose `query` routes on
  keywords of the SQL text and answers from constant tables.
- **The backend context** (`AppwriteContext`): the signed-in user, the auth
  calls, and the owner-stamped document requests.
- **The todo screen** (`TodoList`) and **one todo row** (`TodoItem`). The
  list is kept current by realtime events, sorted for display, and counted.
  Each row has an editor and a cascading delete.
- **The light/dark theme switch** (`ThemeContext`).

## How the model is organised

- There is one module per source file, plus `Common` and `TodoData`.
  - `Common` holds Option/Outcome/Result and a JavaScript `Value`. It also
    holds `trim`, `toLowerCase` and `includes` over strings, and
    order-preserving sublists.
  - `TodoData` holds the todo document shared by the two todo components.
- Providers and components whose state the source rewrites step by step are
  classes. Their `useState` fields are the class fields.
  - `OrderProvider`, `AppwriteProvider`, `ThemeProvider`, `TodoListScreen`
    and `TodoItemView` are classes.
  - So are `Database` and its static side, `DatabaseStatics`.
- React effects run synchronously inside the setter that triggers them. An
  effect runs only when one of its dependencies changed value, which is
  React's bail-out. `OrderProvider.State()` packs all eleven fields, so
  each method states its whole new state as an update of the old one.
- Every awaited call to the backend SDK or to the catalog is a parameter.
  - A fetch that can fail is an `Outcome`.
  - An auth call is a success flag, and `getCurrentUser` is an optional
    user.
  - A deletion is a per-call success function.
  - `Math.random()` is a function choosing a row of the vendor table.
- Each fetch is two events:
  - its start, returned as a `FetchRequest` by the setter that triggered it;
  - its completion, a separate method.

  Completions may arrive in any order.
- Pure logic is written as functions. The realtime reducer, the comparator,
  the search filter, the mock tables, the query routing, the request
  builders and the stepper are all functions.
  - Two pieces of the source work in place, and the model keeps them that
    way. `getFilteredTodos` sorts an array in place. `handleDelete` deletes
    attachments one by one in a loop.
  - Both are methods with loop invariants, proved against a specification.

### Behaviour of the code worth knowing

- **Quantity.** `setQuantity` on the context stores its argument as it is.
  Nothing clamps it to the stock; only the stepper guards its own buttons.
- **Failed fetches.** A failed model or vendor fetch keeps the previous list
  and sets a fixed message. The list is not emptied.
- **Vendor order.** `getVendorsByModel` builds a JOIN ... ORDER BY price ASC
  query but passes the literal `'vendors'` to `query`. The offers therefore
  come back in mock-table order, which is most expensive first. The first
  display offer costs 120, so three of it total 360 (`DisplayOrderScenario`).
- **Stale fetches.** No fetch result is checked against the selection that
  asked for it. A late answer for an earlier category replaces the current
  list (`StaleModelsFetchWins`).
- **Re-selection.** Selecting the already selected category or model is a
  no-op, because no effect runs.
- **Placing an order.** `placeOrder` in the context only waits and resolves
  `true` when a vendor and a model are selected; it calls no backend. The
  API's `placeOrder` sends an INSERT that contains none of the routing
  keywords, gets `[]` back, and returns `undefined`.

## Model

| member | source | states |
|---|---|---|
| Common.RequireProvider | context/OrderContext.tsx:177-183 | the `useX` hooks return the context exactly when a provider is present, and otherwise fail with the given message |
| Common.Trim | components/ModelSearch.tsx:39 | `trim` never lengthens a string and leaves no whitespace at either end |
| Common.TrimIsSlice | components/ModelSearch.tsx:39 | the trimmed string is a slice of the input between a whitespace-only prefix and a whitespace-only suffix |
| Common.BlankIffAllWs | components/TodoList.tsx:114 | a string is blank after trimming iff every character is whitespace |
| Common.Lower | components/ModelSearch.tsx:43 | lower-casing keeps the length and maps each character separately |
| MockDatabase.Param | api/database.ts:38 | `params[i]` is the i-th parameter, or `undefined` past the end |
| MockDatabase.Route | api/database.ts:37-48 | routing keys on `models` first; products without `vendors` go to the products table; a text without any of the three keywords gets `[]`; the plain vendors branch needs `vendors` without `products` |
| MockDatabase.MockModels | api/database.ts:53-83 | Display has ten models with ids 1..10, Battery ten with ids 11..20, each tagged with its category; any other value gives `[]` |
| MockDatabase.MockProducts | api/database.ts:100-118 | 5 display grades and 3 battery grades, otherwise none; each echoes the model id and is in stock; prices strictly decrease and ids increase down the list |
| MockDatabase.MockVendors | api/database.ts:85-98 | one offer per product row, carrying that product unchanged and a vendor from the five-entry table |
| MockDatabase.SameModelsInBothCategories | api/database.ts:53-83 | both categories list the same phone names in the same order, with battery ids 10 above display ids |
| MockDatabase.Database.constructor | api/database.ts:5-7 | a new database is not connected |
| MockDatabase.Database.Connect | api/database.ts:16-24 | `connect` sets the flag and resolves true |
| MockDatabase.Database.Disconnect | api/database.ts:26-29 | `disconnect` clears the flag |
| MockDatabase.Database.Query | api/database.ts:31-51 | `query` always answers: models, offers, products or `[]`, according to the branch `Route` picks, from parameters 0 and 1 |
| MockDatabase.DatabaseStatics.constructor | api/database.ts:4 | there is no instance before the first `getInstance` |
| MockDatabase.DatabaseStatics.GetInstance | api/database.ts:9-14 | the first call creates an unconnected instance and stores it; later calls return the stored one |
| MockDatabase.GetInstanceIsShared | api/database.ts:9-14 | two calls of `getInstance` return the same object |
| Products.PlaceOrderParams | api/products.ts:60-67 | six parameters: the customer id, or `null` when it is falsy, then model, product, vendor, quantity and total, unchanged |
| Products.FirstRowId | api/products.ts:70 | `result[0]?.id` is `undefined` for an empty result, and otherwise the first row's `id` (for an offer row, its product's) |
| Products.ModelsSqlRoutesToModels | api/products.ts:7-14 | the models query contains `models`, so it takes the models branch |
| Products.VendorsSqlRoutesToVendors | api/products.ts:34 | the literal `'vendors'` takes the plain vendors branch |
| Products.InsertSqlRoutesNowhere | api/products.ts:46-58 | the INSERT text contains none of `models`, `vendors`, `products`, so it matches no branch |
| Products.GetModelsByCategory | api/products.ts:3-20 | connects, then returns the category's mock models in table order |
| Products.GetVendorsByModel | api/products.ts:22-40 | connects, then returns one offer per grade for (model id, category), with prices strictly decreasing despite the query's ascending ORDER BY |
| Products.PlaceOrder | api/products.ts:42-75 | connects, and the order id it returns is always `undefined` |
| OrderContext.TotalPrice | context/OrderContext.tsx:91-97 | the total is the offer's price times the quantity, or 0 without an offer |
| OrderContext.UseOrder | context/OrderContext.tsx:177-183 | `useOrder` fails with its message outside a provider |
| OrderContext.OrderProvider.constructor | context/OrderContext.tsx:55-67 | initial state: nothing selected, empty lists, not loading, no errors, quantity 1, total 0, total consistent |
| OrderContext.OrderProvider.StartModelsFetch | context/OrderContext.tsx:99-101 | a models fetch for the category starts: loading on, error cleared, the list untouched |
| OrderContext.OrderProvider.StartVendorsFetch | context/OrderContext.tsx:114-116 | a vendors fetch for (model id, category) starts: loading on, error cleared |
| OrderContext.OrderProvider.RunCategoryEffect | context/OrderContext.tsx:69-79 | a category starts a models fetch, none empties the model list; either way model and vendor are cleared and the quantity is 1; nothing else changes |
| OrderContext.OrderProvider.RunModelEffect | context/OrderContext.tsx:81-89 | a model starts a vendors fetch for (its id, the current category), none empties the vendor list; the vendor is cleared; the quantity is untouched |
| OrderContext.OrderProvider.RunTotalEffect | context/OrderContext.tsx:91-97 | the total is brought in line with the offer and quantity, and nothing else changes |
| OrderContext.OrderProvider.SetSelectedCategory | context/OrderContext.tsx:69-97 | the same category changes nothing; a new one clears model and vendor, sets quantity 1 and total 0, starts a models fetch or empties the models, and empties the vendors only when a model was selected; the total stays consistent |
| OrderContext.OrderProvider.SetSelectedModel | context/OrderContext.tsx:81-97 | the same model changes nothing; a new one clears the vendor and the total and keeps the quantity; it starts a vendors fetch or empties the vendors |
| OrderContext.OrderProvider.SetSelectedVendor | context/OrderContext.tsx:91-97 | choosing an offer sets the total to its price times the quantity; nothing else changes |
| OrderContext.OrderProvider.SetQuantity | context/OrderContext.tsx:66-67 | any quantity is stored without clamping, and the total follows through the effect at lines 91-97 |
| OrderContext.OrderProvider.CompleteModelsFetch | context/OrderContext.tsx:103-111 | success replaces the models; failure sets the fixed message and keeps the previous list; loading ends either way |
| OrderContext.OrderProvider.CompleteVendorsFetch | context/OrderContext.tsx:118-126 | the same for offers, with the vendors message |
| OrderContext.OrderProvider.ResetOrder | context/OrderContext.tsx:129-134 | category, model and vendor are cleared, quantity is 1 and total 0; lists are emptied only where their effect ran; loading and error flags are kept |
| OrderContext.OrderProvider.PlaceOrder | context/OrderContext.tsx:136-152 | the order is placed iff a vendor and a model are selected; no state changes |
| OrderContext.StaleModelsFetchWins | context/OrderContext.tsx:99-112 | Display then Battery, with the Display answer arriving last: Battery is selected while the Display models are listed |
| OrderContext.DisplayOrderScenario | context/OrderContext.tsx:69-152 | display, first model, first offer, quantity 3: the total is 360 and the order is placed; after reset the quantity is 1 and the total 0 |
| QuantitySelector.EffectiveMax | components/QuantitySelector.tsx:24 | `maxQuantity` defaults to 10 |
| QuantitySelector.Decrease | components/QuantitySelector.tsx:50-62 | minus emits exactly when its button is enabled (`quantity > 1`), and then emits `quantity - 1`, which is at least 1 |
| QuantitySelector.Increase | components/QuantitySelector.tsx:64-76 | plus emits exactly when its button is enabled (`quantity < max`), and then emits `quantity + 1`, which is at most max |
| QuantitySelector.AfterPress | components/QuantitySelector.tsx:50-76 | one press moves the parent's quantity by at most one |
| QuantitySelector.PressesStayInRange | components/QuantitySelector.tsx:50-76 | from inside [1, max], no sequence of presses leaves [1, max] |
| QuantitySelector.PlusPressesSaturate | components/QuantitySelector.tsx:64-76 | n plus presses from q give min(q + n, max) |
| QuantitySelector.AboveMaxOnlyDecreases | components/QuantitySelector.tsx:64-76 | above the maximum, plus does nothing and minus steps down by one |
| ModelSearch.FilterByName | components/ModelSearch.tsx:42-44 | the filter result is an order-preserving sublist holding every matching model as often as it occurs, and no other |
| ModelSearch.FilterIsUnique | components/ModelSearch.tsx:42-44 | those two properties determine the filter's result completely |
| ModelSearch.FilteredModels | components/ModelSearch.tsx:38-47 | a blank query keeps the whole list; any result is a sublist; a non-blank query keeps exactly the models whose lower-cased name contains the lower-cased, untrimmed query |
| ModelSearch.ClearSearchShowsAll | components/ModelSearch.tsx:49-51 | after clearing, the full list is shown and the clear button is hidden |
| ModelSearch.WhitespaceQueryShowsAll | components/ModelSearch.tsx:39-40 | a whitespace-only query shows every model |
| ModelSearch.UntrimmedQueryTakesPart | components/ModelSearch.tsx:39-43 | "14" finds iPhone 14 but "14 " finds nothing, because only the blank test trims |
| ModelSearch.Render | components/ModelSearch.tsx:84-99 | a spinner iff loading; then a non-empty error; then the list iff it is non-empty; else the empty message |
| ThemeContext.Toggled | context/ThemeContext.tsx:19-21 | a toggle always changes the theme, and gives light exactly from a non-light theme |
| ThemeContext.PaletteOf | context/ThemeContext.tsx:17 | the light colours exactly for the light theme |
| ThemeContext.ToggleTwice | context/ThemeContext.tsx:17-21 | two toggles cancel out, and one toggle always switches the palette |
| ThemeContext.ThemeProvider.constructor | context/ThemeContext.tsx:15 | the theme starts light |
| ThemeContext.ThemeProvider.CurrentColors | context/ThemeContext.tsx:17 | the colours follow the current theme |
| ThemeContext.ThemeProvider.ToggleTheme | context/ThemeContext.tsx:19-21 | the theme becomes the toggle of the previous one |
| ThemeContext.ToggleTwiceFromStart | context/ThemeContext.tsx:15-21 | a new provider toggled twice is light again, with the light colours |
| ThemeContext.UseTheme | context/ThemeContext.tsx:32-38 | `useTheme` fails with its message outside a provider |
| AppwriteContext.OwnerId | context/AppwriteContext.tsx:134 | `user?.$id` is a string exactly when a user is signed in, and otherwise `undefined` |
| AppwriteContext.Stamp | context/AppwriteContext.tsx:134 | the stamped document has the caller's keys plus `userId`; `userId` is the owner's id; every other field is unchanged |
| AppwriteContext.IdText | context/AppwriteContext.tsx:147 | a missing user prints as "undefined" |
| AppwriteContext.UserFilter | context/AppwriteContext.tsx:147 | the filter is the `equal("userId", "` prefix, the owner's id text, and the closing suffix |
| AppwriteContext.UserFilterInjective | context/AppwriteContext.tsx:147 | equal filters mean equal owner id texts |
| AppwriteContext.SignedOutFilterCollides | context/AppwriteContext.tsx:147 | signed out, the filter equals that of a user whose id is "undefined" |
| AppwriteContext.CreateTodoRequest | context/AppwriteContext.tsx:132-135 | `createTodo` creates in the todo collection with the stamped data |
| AppwriteContext.CreateOrderRequest | context/AppwriteContext.tsx:182-185 | `createOrder` creates in the order collection with the stamped data |
| AppwriteContext.GetTodosRequest | context/AppwriteContext.tsx:145-148 | `getTodos` queries the todo collection with the owner filter alone |
| AppwriteContext.GetOrdersRequest | context/AppwriteContext.tsx:195-198 | `getOrders` queries the order collection with the owner filter alone |
| AppwriteContext.CreatedTodoMatchesOwnFilter | context/AppwriteContext.tsx:130-148 | a signed-in user's created todo carries the very id that user's `getTodos` filters on |
| AppwriteContext.UseAppwrite | context/AppwriteContext.tsx:292-298 | `useAppwrite` fails with its message outside a provider |
| AppwriteContext.AppwriteProvider.constructor | context/AppwriteContext.tsx:49-50 | no user, and loading, at mount |
| AppwriteContext.AppwriteProvider.CheckUserSession | context/AppwriteContext.tsx:59-71 | a returned user is stored; no user, or a check that throws, leaves the user as it was; loading ends false |
| AppwriteContext.AppwriteProvider.SignInThenFetchUser | context/AppwriteContext.tsx:74-86 | the shared shape of the three sign-ins: on success the current user (possibly none) is fetched and stored; on failure the user is kept and the error rethrown; loading ends false |
| AppwriteContext.AppwriteProvider.SignIn | context/AppwriteContext.tsx:74-86 | `signIn` calls the SDK sign-in, then `getCurrentUser` on success; it rethrows exactly on failure; the user is replaced only on success; loading ends false |
| AppwriteContext.AppwriteProvider.SignUp | context/AppwriteContext.tsx:88-100 | the same with account creation as the first call |
| AppwriteContext.AppwriteProvider.SignInWithGoogle | context/AppwriteContext.tsx:102-114 | the same with the Google sign-in as the first call |
| AppwriteContext.AppwriteProvider.SignOut | context/AppwriteContext.tsx:116-127 | the user is cleared only when the SDK call succeeds; failure rethrows; loading ends false |
| AppwriteContext.SessionLifecycle | context/AppwriteContext.tsx:59-127 | a restored session survives a failed sign-out and a failed sign-in, and is gone after a successful sign-out |
| AppwriteContext.SignInWithoutCurrentUser | context/AppwriteContext.tsx:74-86 | a successful sign-in whose `getCurrentUser` answers null leaves nobody authenticated, without an error |
| TodoData.Attachments | components/TodoItem.tsx:87-88 | the attachment list, or none when it is missing or null |
| TodoData.DescriptionText | components/TodoItem.tsx:33 | the description, or the empty string when it is missing or null |
| TodoList.Spread | components/TodoList.tsx:82 | a property of the payload wins unless the payload lacks it |
| TodoList.Merge | components/TodoList.tsx:82 | every required field comes from the payload; each optional field comes from the payload unless the payload lacks it |
| TodoList.MergeIdempotent | components/TodoList.tsx:82 | merging the same payload twice is merging it once |
| TodoList.MergeMatching | components/TodoList.tsx:81-83 | the same length; the todos with the payload's id are merged; all others are unchanged |
| TodoList.RemoveId | components/TodoList.tsx:87 | an order-preserving sublist that drops every todo with the id and keeps every other todo as often as it occurs |
| TodoList.OnRealtimePayload | components/TodoList.tsx:73-88 | create, then update, then delete decides. Create prepends only the current user's payload. Update merges only the current user's payload into matching ids. Delete removes the id whatever its owner. Any other event changes nothing |
| TodoList.EventsDistinct | components/TodoList.tsx:73-85 | the three event names are different |
| TodoList.RemoveAbsentId | components/TodoList.tsx:87 | deleting an id that is not in the list changes nothing |
| TodoList.CreateThenDeleteRestores | components/TodoList.tsx:73-88 | the owner's create of a new id, then its delete, restore the list |
| TodoList.UpdateIdempotent | components/TodoList.tsx:78-84 | replaying an update payload gives the same list |
| TodoList.Rank | components/TodoList.tsx:154 | ranks lie in 1..3, with 3 exactly for high and 1 exactly for low |
| TodoList.Compare | components/TodoList.tsx:147-160 | negative iff `a` belongs first (open before done, then higher priority, then newer); positive iff `b` does; zero iff the three keys are equal |
| TodoList.InOrderIsComparator | components/TodoList.tsx:148-160 | `a` may precede `b` iff the comparator is not positive |
| TodoList.InOrderTransitive | components/TodoList.tsx:148-160 | that order is transitive |
| TodoList.InsertAt | components/TodoList.tsx:148 | one insertion step extends the sorted prefix by one and keeps the same todos |
| TodoList.SortTodos | components/TodoList.tsx:147-160 | the array ends sorted by the comparator and holds the same todos |
| TodoList.CountsPartition | components/TodoList.tsx:202 | pending plus completed is the length of the list |
| TodoList.NewTodoRequest | components/TodoList.tsx:121-128 | the request has the trimmed title, the trimmed description or `null` when that is empty, not completed, the chosen priority, and the two clock readings as `createdAt` and `updatedAt` |
| TodoList.TodoListScreen.constructor | components/TodoList.tsx:33-41 | empty list, loading, modal closed, empty form with medium priority, status connecting |
| TodoList.TodoListScreen.CompleteLoad | components/TodoList.tsx:46-57 | the loaded documents replace the list, or an alert is raised and the list is kept; loading ends either way and nothing else changes |
| TodoList.TodoListScreen.SetupRealtime | components/TodoList.tsx:63-93 | the status is connecting, or disconnected when `subscribeTo` throws; nothing else changes |
| TodoList.TodoListScreen.ReceivePayload | components/TodoList.tsx:66-88 | any payload makes the status connected, and the list becomes the reducer's result; nothing else changes |
| TodoList.TodoListScreen.OpenAddModal | components/TodoList.tsx:209 | the add button opens the modal and changes nothing else |
| TodoList.TodoListScreen.CloseAddModal | components/TodoList.tsx:263 | the close button closes the modal and keeps the form as typed |
| TodoList.TodoListScreen.SetNewTodoTitle | components/TodoList.tsx:290 | typing replaces the title field only |
| TodoList.TodoListScreen.SetNewTodoDescription | components/TodoList.tsx:298 | typing replaces the description field only |
| TodoList.TodoListScreen.SetNewTodoPriority | components/TodoList.tsx:312 | a priority chip replaces the chosen priority only |
| TodoList.TodoListScreen.StartCreateTodo | components/TodoList.tsx:113-130 | a blank title only alerts: no request, nothing changes. Otherwise `creating` goes on and the request built from the form is sent; nothing else changes |
| TodoList.TodoListScreen.FinishCreateTodo | components/TodoList.tsx:130-145 | success resets the form to empty with medium priority and closes the modal; failure alerts and keeps the form. `creating` goes off either way, and the list is untouched |
| TodoList.TodoListScreen.PressCreate | components/TodoList.tsx:269-271 | while the button is disabled (creating, or a blank title) a press does nothing; otherwise it starts the creation |
| TodoList.DoubleTapCreatesOnce | components/TodoList.tsx:113-145 | two quick taps send one request; after it succeeds the modal is closed, the title empty and `creating` off |
| TodoList.TodoListScreen.GetFilteredTodos | components/TodoList.tsx:147-161 | returns the stored list, which is now sorted and holds the same todos; no other state changes |
| TodoItem.DeleteCalls | components/TodoItem.tsx:86-92 | the delete sequence issues at least one call and at most one per attachment plus one |
| TodoItem.DeleteCallsShape | components/TodoItem.tsx:86-96 | attachments are deleted in list order, each but the last call a success. The todo is deleted iff every attachment was; otherwise the sequence ends at the failed attachment |
| TodoItem.TodoDeletedOnlyAfterAllFiles | components/TodoItem.tsx:86-96 | the todo is deleted iff all of its attachments were |
| TodoItem.TodoItemView.constructor | components/TodoItem.tsx:31-34 | not editing or updating; the buffers hold the title and the description, or the empty string when there is none |
| TodoItem.TodoItemView.StartEdit | components/TodoItem.tsx:219 | enters edit mode with the buffers as they are |
| TodoItem.TodoItemView.SetEditTitle | components/TodoItem.tsx:127 | typing replaces the title buffer only |
| TodoItem.TodoItemView.SetEditDescription | components/TodoItem.tsx:134 | typing replaces the description buffer only |
| TodoItem.TodoItemView.Cancel | components/TodoItem.tsx:141-145 | leaves edit mode and restores both buffers from the todo |
| TodoItem.TodoItemView.ReceiveProp | components/TodoItem.tsx:28-33 | a re-render with the reloaded todo of the same id replaces the prop only; the editor buffers and flags keep their `useState` values |
| TodoItem.TodoItemView.StartToggleComplete | components/TodoItem.tsx:38-44 | `isUpdating` goes on and the negated completion flag is sent with the clock reading; the editor is untouched |
| TodoItem.TodoItemView.FinishToggleComplete | components/TodoItem.tsx:45-51 | reloads iff the call succeeded, alerts otherwise; `isUpdating` goes off |
| TodoItem.TodoItemView.PressToggle | components/TodoItem.tsx:166-169 | outside edit mode, where the checkbox is shown: while an update is in flight a press sends nothing; otherwise it starts the toggle |
| TodoItem.TodoItemView.StartSaveEdit | components/TodoItem.tsx:53-65 | a blank title alerts, sends nothing and stays editing. Otherwise `isUpdating` goes on and the trimmed buffers are sent |
| TodoItem.TodoItemView.FinishSaveEdit | components/TodoItem.tsx:66-73 | success leaves edit mode and reloads; failure alerts and stays editing. `isUpdating` goes off and the buffers are kept |
| TodoItem.TodoItemView.PressSave | components/TodoItem.tsx:150-153 | in edit mode, where the button is shown: while an update is in flight a press sends nothing; otherwise it starts the save |
| TodoItem.TodoItemView.PressCancel | components/TodoItem.tsx:139-146 | in edit mode, where the button is shown: while an update is in flight a press changes nothing; otherwise it cancels the edit |
| TodoItem.TodoItemView.Delete | components/TodoItem.tsx:75-101 | cancelling does nothing. Confirming issues exactly the delete sequence and reloads iff every call succeeded, otherwise it alerts |
| TodoItem.EditThenCancel | components/TodoItem.tsx:141-145 | editing both buffers and cancelling leaves the row as it started |
| TodoItem.FailedSaveKeepsEditor | components/TodoItem.tsx:53-73 | a failed save of a non-blank title keeps the editor open with the typed title, after sending it, and re-enables the buttons |
| TodoItem.CancelBlockedWhileSaving | components/TodoItem.tsx:139-153 | cancel pressed while a save is in flight leaves the editor open with the typed title |
| TodoItem.DoubleTapTogglesOnce | components/TodoItem.tsx:166-169 | two quick taps on the checkbox send one update, and its success reloads and re-enables the checkbox |
| TodoItem.ToggleAfterReloadFlipsBack | components/TodoItem.tsx:38-50 | the toggle reads the current prop: after a successful toggle and the reloaded todo, the next tap sends the original flag back |
| TodoItem.CancelAfterReloadRestoresSavedTitle | components/TodoItem.tsx:139-146 | after a successful save and the reload, cancelling a later edit restores the saved, trimmed title |

## Left out

- Styling, animation (Reanimated shared values), icons and layout are not modelled.
- Timers are not modelled. The `setTimeout` delays of `connect`, `query` and `placeOrder` are instants.
- `console` logging is not modelled. An `Alert` is recorded only as its message.
- The Appwrite SDK bindings (lib/appwrite.ts) are not part of this model. Each call is an outcome parameter, and `getCurrentUser` returns an optional user.
- The pass-through wrappers `updateTodo`, `deleteTodo`, `updateOrder`, `deleteOrder`, `uploadFile` and `deleteFile` in AppwriteContext are not modelled. Each forwards to the SDK, logs and rethrows.
- The calls that `TodoItem` makes through `updateTodo`, `deleteTodo` and `deleteFile` appear there as records (`UpdateCall`, `DeleteCall`). `updateOrder`, `deleteOrder` and `uploadFile` have no caller in the modelled components and appear nowhere.
- `subscribeTo` forwards to the SDK without a `try`/`catch`. Whether it throws is the `subscribeOk` parameter of `TodoListScreen.SetupRealtime`.
- The realtime unsubscribe on unmount is not modelled.
- The moment when the realtime effect re-runs (`[user, loadTodos, subscribeTo]`) is not modelled.
- `loadTodos` is modelled only by its completion (`CompleteLoad`). The `refreshing` flag and `handleRefresh` are left out.
- `isLoading` is not modelled as true while an auth call is awaited. Each auth method of `AppwriteProvider` is atomic and states the final `false`. The todo handlers, by contrast, are split into a start and a finish event, so their `creating` and `isUpdating` flags and the buttons those flags disable are modelled.
- `getStatusColor`, the status label and the priority colours are not modelled. They are presentation.
- Products: the `catch` blocks that log and rethrow are not modelled, because neither `connect` nor `query` ever rejects.
- Products: `connect` is awaited on the shared instance passed in as `db`; the module-level default export is not a separate object here.
- Prices, totals and ratings are integers; a rating is kept in tenths. Dates and timestamps are integer milliseconds, so `new Date(x).getTime()` is `x`.
- Common.Lower: only ASCII `A`-`Z` are lower-cased. `toLowerCase` maps all of Unicode, but the model names and typical queries are ASCII.
- Object identity is value equality. React compares objects by `Object.is`, so a payload equal to the current model or vendor but distinct would still re-run an effect in the source.
- TodoList.SortTodos: insertion sort stands in for `Array.prototype.sort`. The contract states only what any correct sort gives (sorted by the comparator, the same todos); the relative order of todos with equal keys is not stated.
- TodoList.TodoListScreen.GetFilteredTodos: `Array.prototype.sort` is stable, so todos with equal keys keep their order in the list. The contract relies on `SortTodos` and states only sortedness and the same todos, not the order among equal keys.
- ModelSearch.FilteredModels: the `filteredModels` state starts as `[]` and holds the filter's value only after the effect's first run; the model states its value between renders.
- OrderContext.OrderProvider.PlaceOrder: the one-second delay and the console record of the order are not modelled.
- Some predicates and small functions carry no contract of their own. Their meaning is stated by the members that use them:
  - `TodoList.TodoListScreen.CreateDisabled`, the `disabled` prop of the create button (components/TodoList.tsx:271), by `PressCreate` and `DoubleTapCreatesOnce`.
  - `ModelSearch.ClearButtonShown`, the clear-button condition (components/ModelSearch.tsx:77), by `ClearSearchShowsAll`.
  - `AppwriteContext.AppwriteProvider.IsAuthenticated`, `!!user` (context/AppwriteContext.tsx:52), by the auth methods that set or clear the user and by `SignInWithoutCurrentUser`.
  - `TodoList.PendingCount` and `TodoList.CompletedCount`, the header counts (components/TodoList.tsx:202), by `CountsPartition`.
  - `QuantitySelector.DecreaseDisabled` and `QuantitySelector.IncreaseDisabled`, the buttons' `disabled` props, by `Decrease` and `Increase`.
  - `Common.IsBlank`, `!s.trim()` (components/TodoList.tsx:114, components/TodoItem.tsx:54, components/ModelSearch.tsx:39), by `Common.BlankIffAllWs` and `ModelSearch.WhitespaceQueryShowsAll`.
  - `Common.Contains`, `String.prototype.includes`, by `Common.ContainsMiddle`, `Common.AbsentByMissingChar` and `ModelSearch.FilterByName`.
  - `ModelSearch.NameMatches`, the callback of the search filter (components/ModelSearch.tsx:42-43), by `ModelSearch.FilterByName` and `ModelSearch.FilterIsUnique`.
  - `OrderContext.CategoryName`, the category string passed to the queries, by `OrderContext.DisplayOrderScenario`.
  - `Common.Truthy`, JavaScript truthiness, and `Common.OrElse`, the `||` of api/products.ts:61, whose contract only spells out `||`, by `Products.PlaceOrderParams`.
