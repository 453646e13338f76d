# Anonymous feedback and match engine — a Dafny model

This project models the core of a phone-book feedback app. A registered user spends a one-unit
credit to send anonymous positive feedback about a relationship, identified by a pair key. The
server stores each feedback as a (pair key, sender hash) record and refuses a second record for
the same (pair key, sender hash). When a pair key holds exactly two feedbacks, the sender of the second one gets a
match notification. Administrators can refill every credit and purge data older than two weeks.
On the phone, a store slice and the notifications screen keep the list of notifications. They mark
items read, delete them, clear them, count the unread ones, label their age and show them newest
first.

The model has six modules:

- `Shared`: `Option` and the notification `Kind` (`match` / `info`).
- `Lists`: an order-preserving `Filter`, used for every `find` and `filter` call, with its
  lemmas.
- `Sorting`: an in-place insertion sort of an array by a non-increasing key.
- `FeedbackServer`: the three collections as fields of the class `Db`. Each request handler is a
  method of `Db`. Calls run one after another.
- `NotificationsSlice`: the class `Slice` holds the store's `items`, `status` and `error`. The
  reducers are its methods.
- `NotificationsScreen`: the screen's pure list helpers, plus the class `Screen`. `Screen` holds the
  state array that each action replaces and that rendering sorts in place.

How the source's values are represented:

- A missing or falsy request field is `None` or `""`.
- User ids are positions in the user list, in creation order. Users are never deleted.
- Times are integer milliseconds. The current time `now` is always a parameter.
- What local storage held when the screen loaded is a parameter too.

Notes on the server's behaviour:

- The server hashes nothing. `pairKey` and `fromUserHash` are opaque strings sent by the client.
- The duplicate check is a lookup followed by an insert, not an atomic conditional insert.
- On a match only the acting sender is notified, not both parties.
- The credit check comes before the duplicate check. So a sender who has spent their credit and
  repeats a feedback gets 403, not 409. `MutualFeedbackScenario` shows this.
- A sender hash is not tied to the sending user: the server never checks `fromUserHash` against `fromUserId`. So one user with two hashes can complete a match alone. `SelfMatchScenario` shows this.
- After clear-old-data removes old feedbacks, a pair key can reach two feedbacks again and fire a
  second match. `AtMostOneMatchPerPair` holds only for runs without deletions.

## Model

| member | source | states |
|---|---|---|
| `FeedbackServer.Db.SubmitFeedback` | backend/server.js:47-92 | The checks run in order. A missing field gives 400. An unknown sender gives 404. Credit below 1 gives 403, whatever the duplicates. An existing (pairKey, fromUserHash) gives 409. Every refusal leaves users, feedbacks and notifications unchanged. Otherwise the answer is 201. Exactly one feedback is appended. Only the sender's credit changes, down by 1 and never below 0. A match notification for the sender alone is appended iff the pair key now holds exactly 2 feedbacks. The database invariant is kept: (pairKey, fromUserHash) is unique and credits stay in 0..1. |
| `FeedbackServer.Db.FindFeedback` | backend/server.js:59-60 | Returns a record with this pair key and hash, or None exactly when no such record exists. |
| `FeedbackServer.Db.FindUserByPhone` | backend/server.js:115 | Returns the user with this phone number, or None exactly when no user has it. |
| `FeedbackServer.Db.Register` | backend/server.js:111-120 | An empty phone gives 400 and no change. An existing phone returns that very user, and nothing changes. A new phone appends one user with credit 1 and returns it. The answer is 200 in both cases. Feedbacks and notifications are untouched. Phones stay unique. |
| `FeedbackServer.RegisterTwice` | backend/server.js:113-120 | Registering the same phone twice gives the same answer and the same user both times. The users end as one registration leaves them: unchanged when the phone is empty or already known, otherwise with one new user of credit 1. Feedbacks and notifications are unchanged. |
| `FeedbackServer.Db.GetNotifications` | backend/server.js:128-130 | Returns exactly the given user's notifications, as a multiset, ordered by createdAt non-increasing. |
| `FeedbackServer.Db.ResetCredits` | backend/server.js:138-139 | Every user's credit becomes 1, and no other modelled field or collection changes. The user schema has timestamps on (backend/server.js:13), so the update also stamps `updatedAt` on every user, and the returned count is the number of users. |
| `FeedbackServer.ResetCreditsTwice` | backend/server.js:138-139 | Both resets report the number of users, since each also stamps `updatedAt` (backend/server.js:13). The users end as one reset leaves them: the same users, each with credit 1. Feedbacks and notifications are unchanged. |
| `FeedbackServer.Db.ClearOldData` | backend/server.js:147-150 | Removes exactly the feedbacks and the notifications with createdAt < now − 14·24·60·60·1000 and keeps all others in order. Users are unchanged. The two returned counts are the numbers removed. Uniqueness is kept. |
| `FeedbackServer.MatchesFired` | backend/server.js:74-90 | Counts the inserts, in a run of inserts, that bring a pair key to exactly 2 feedbacks. Only inserts under that pair key can count. |
| `FeedbackServer.CountAfterInsert` | backend/server.js:65-76 | Appending a feedback raises the count for its own pair key by exactly one and leaves every other pair key's count alone. |
| `FeedbackServer.AtMostOneMatchPerPair` | backend/server.js:74-90 | Over any sequence of inserts without deletions, at most one insert brings a pair key to exactly 2 feedbacks. None does once the key already holds 2 or more. |
| `FeedbackServer.CountIsDistinctSenders` | backend/server.js:59-76 | When (pairKey, fromUserHash) is unique, the number of feedbacks under a pair key equals the number of distinct sender hashes under it. So a count of 2 means two different sender hashes, not necessarily two different users. |
| `FeedbackServer.FilterKeepsUnique` | backend/server.js:148 | Deleting feedbacks keeps the (pairKey, fromUserHash) uniqueness invariant. |
| `FeedbackServer.MutualFeedbackScenario` | backend/server.js:54-90 | Two users send feedback under one pair key, and both get 201. Only the second sender receives the match notification. The first sender's repeat gets 403, not 409. |
| `FeedbackServer.SelfMatchScenario` | backend/server.js:49-90 | One user sends feedback under a pair key and, after a credit reset, sends again under the same key with another hash. Both get 201, and that user alone receives the match. |
| `Lists.Filter` | app/notifications.tsx:89 | The result holds exactly the elements that pass, is no longer than the input, and is a sub-multiset of it. |
| `Lists.FilterAppend` | store/slices/notificationsSlice.ts:68 | Filtering distributes over concatenation, so the relative order of kept elements is preserved. |
| `Lists.FilterSplit` | backend/server.js:148-150 | The items a filter drops and the items its negation drops add up to the whole list. This makes the deleted counts correct. |
| `Sorting.SortNewestFirst` | app/notifications.tsx:207-208 | Sorts the array in place by non-increasing key, and the result is a permutation of the old contents. |
| `NotificationsSlice.FindById` | store/slices/notificationsSlice.ts:62 | Returns the first position with this id, or None exactly when no item has it. |
| `NotificationsSlice.MarkFirstRead` | store/slices/notificationsSlice.ts:61-66 | The length is kept. Only `isRead` of an item can change, and an item changes only if it has the id and is then read. |
| `NotificationsSlice.MarkFirstReadAt` | store/slices/notificationsSlice.ts:61-66 | When position k is the first with this id, marking sets isRead on that one item and changes nothing else. |
| `NotificationsSlice.MarkFirstReadNoMatch` | store/slices/notificationsSlice.ts:62-63 | When no item has the id, marking changes nothing. |
| `NotificationsSlice.MarkFirstReadIdempotent` | store/slices/notificationsSlice.ts:61-66 | Marking the same id twice equals marking it once. |
| `NotificationsSlice.Slice.constructor` | store/slices/notificationsSlice.ts:46-50 | The slice starts with no items, status idle and no error. |
| `NotificationsSlice.Slice.AddNotification` | store/slices/notificationsSlice.ts:58-60 | The payload goes to index 0, followed by the old items in order. Status and error stay. |
| `NotificationsSlice.Slice.MarkAsRead` | store/slices/notificationsSlice.ts:61-66 | The items become the first-match marking of the old items. Status and error stay. |
| `NotificationsSlice.Slice.DeleteNotification` | store/slices/notificationsSlice.ts:67-69 | Every item with the id is removed. Every other item is kept, in order. Status and error stay. |
| `NotificationsSlice.Slice.ClearAllNotifications` | store/slices/notificationsSlice.ts:70-72 | The items become empty. Status and error stay. |
| `NotificationsSlice.Slice.FetchPending` | store/slices/notificationsSlice.ts:77-79 | Status becomes loading. Items and error stay. |
| `NotificationsSlice.Slice.FetchFulfilled` | store/slices/notificationsSlice.ts:80-83 | Status becomes succeeded and the items become the payload. The error is not cleared. |
| `NotificationsSlice.Slice.FetchRejected` | store/slices/notificationsSlice.ts:84-87 | Status becomes failed and the error becomes the payload. The items stay. |
| `NotificationsScreen.FormatTime` | app/notifications.tsx:115-123 | Below 60000 ms, including negative ages, the label is "now". Below an hour it is ⌊diff/60000⌋ minutes, in 1..59. Below a day it is ⌊diff/3600000⌋ hours, in 1..23. Otherwise it is ⌊diff/86400000⌋ days, at least 1. Each count n satisfies n·unit ≤ diff < (n+1)·unit. |
| `NotificationsScreen.WelcomeNotifications` | app/notifications.tsx:40-52 | The default list is one unread info notification with id "1" and an empty contact name. Its label reads one minute ago. |
| `NotificationsScreen.MarkAllRead` | app/notifications.tsx:71-75 | Length is kept. Every item with the id is read afterwards. The read flag of other items is kept, and no other field of any item changes. |
| `NotificationsScreen.MarkAllReadIdempotent` | app/notifications.tsx:71-75 | Marking twice equals marking once. |
| `NotificationsScreen.UnreadAfterMarkAllRead` | app/notifications.tsx:71-75 | Marking an id lowers the unread count by exactly the number of unread items with that id. |
| `NotificationsScreen.RemoveById` | app/notifications.tsx:89 | Keeps exactly the items whose id differs. |
| `NotificationsScreen.RemoveAbsentId` | app/notifications.tsx:89 | When no item has the id, deleting leaves the list unchanged. |
| `NotificationsScreen.DeleteKeepsOrder` | app/notifications.tsx:89 | Deleting from a concatenation deletes from each part, so the survivors keep their original order. |
| `NotificationsScreen.UnreadCount` | app/notifications.tsx:155 | The count is at most the length. |
| `NotificationsScreen.UnreadCountExtremes` | app/notifications.tsx:155 | The count is 0 iff every item is read. It equals the length iff no item is read. |
| `NotificationsScreen.Screen.constructor` | app/notifications.tsx:26-27 | The screen starts with an empty list and loading on. |
| `NotificationsScreen.Screen.SetNotifications` | app/notifications.tsx:38 | The state becomes a new array whose contents are exactly the given list. Loading is unchanged. |
| `NotificationsScreen.Screen.LoadNotifications` | app/notifications.tsx:33-60 | The state becomes the stored list, or the welcome list when nothing was stored. Loading ends in both cases. |
| `NotificationsScreen.Screen.MarkAsRead` | app/notifications.tsx:70-78 | The state becomes a new array holding the marked list. |
| `NotificationsScreen.Screen.DeleteNotification` | app/notifications.tsx:80-96 | The state becomes a new array holding the list without that id. |
| `NotificationsScreen.Screen.ClearAllNotifications` | app/notifications.tsx:98-113 | The state becomes an empty array. |
| `NotificationsScreen.Screen.SortForDisplay` | app/notifications.tsx:207-208 | The state array itself is reordered into a permutation of its old contents, with non-increasing timestamps. |

## Left out

- Concurrency: the feedback handler's lookups and writes interleave across `await`s, and this is not modelled. Calls run one at a time, each to completion.
- Hashing and pair-key derivation: the server never hashes. Pair keys and sender hashes arrive as opaque strings.
- Every 500 answer is left out: exceptions from the database, a malformed ObjectId (a cast error) and transport failures. The Express and Mongoose wiring, the connection and `listen` are left out too.
- The route stubs at backend/server.js:44 and 101-103 are left out. They are registered before the real handlers and never answer. The model uses the real handlers at 111-154.
- Response bodies: the texts of the messages are not modelled. `Register` returns the user's id, and its phone and credit are that user's fields.
- The `createdAt` and `updatedAt` timestamps of users are not modelled. Feedbacks and notifications get `createdAt = now`.
- FeedbackServer.Db.ResetCredits: returns the number of users. That is the source's `modifiedCount` because the update also stamps `updatedAt` on every user. With `updatedAt` not modelled, the model cannot show the one exception: a user already at credit 1 whose `updatedAt` equals the reset's own timestamp.
- The body of the `fetchNotifications` thunk is network I/O and is left out. This covers the URL, the JSON and the `Date` parsing of `createdAt`. Only its pending, fulfilled and rejected outcomes are modelled.
- On the screen, AsyncStorage reads and writes, JSON parse and stringify, the confirmation dialogs, navigation and layout are left out. The stored list and `now` are parameters. Deleting and clearing are modelled as already confirmed.
- NotificationsScreen.FormatTime: returns the unit and the count, not the rendered text (`"5m ago"`). Times are integers, so JavaScript's floating-point timestamps are not modelled.
- The comparator `b.timestamp - a.timestamp` is modelled as a comparison of integer keys. NaN timestamps are not modelled, and neither is the stability of the sort.
- app/onboarding.tsx, screens/HomeScreen.js, App.js, app/_layout.tsx, the contacts screens and store/store.ts are not part of this model. They hold screens, animation, navigation and store wiring.
