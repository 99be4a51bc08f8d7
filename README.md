# Christoffel's Menu — the menu store in Dafny

This project models the data core of a small React Native menu app. The app
has one shared, in-memory list of dishes (`menuItems`). A chef screen has an
add-dish form (name, description, course picker, price) and a trash button per
dish. A home screen shows the average price of each course and the number of
dishes. A guest screen filters the list by course. Everything here is the
logic of `App.tsx`. The screens, navigation and styles are not part of it.

Layout:

- `Seqs.dfy`: `Filter`, the order-preserving `Array.prototype.filter` that
  removal and both views use. Its lemmas cover order preservation
  (`IsSubsequence`), multiplicities, concatenation, when nothing is dropped,
  when something is dropped, and idempotence.
- `Menu.dfy`: the `MenuItem` record (`App.tsx:21-27`), the course list, and
  removal by id (`WithoutId`).
- `Views.dfy`: the home screen's per-course averages and the guest screen's
  course filter. Both are pure functions of the list.
- `Store.dfy`: class `MenuStore`. It holds the shared list (`App.tsx:257`) and
  the chef screen's form state (`App.tsx:94-97`). Its methods are the form's
  setters, `AddMenuItem`, `RemoveMenuItem` and `Count`. `SoupThenSteak` is a
  client that uses only the methods' contracts.

Prices stay as text in the record, as in the source. `parseFloat` is replaced
by a function parameter `parse: string -> real`, so averages are exact real
arithmetic. The `Date.now()` clock reading used as the id is the `now`
argument of `AddMenuItem`.

Where the code and the app's design description disagree, the model follows
the code:

- The design asks for unique ids. The code uses the clock, so two dishes
  added in the same millisecond share an id, and one trash tap removes both
  (`Menu.SharedIdRemovesBoth`). Uniqueness is not claimed.
- The design asks `add` to reject whitespace-only text, negative or
  unparsable prices and unknown courses. The code only refuses an empty
  name, description or price, and the model does the same.
- The design has `remove` report `NotFound`. The code returns nothing, and
  removing a missing id leaves the list as it was.

## Model

| member | source | states |
|---|---|---|
| `Seqs.Filter` | App.tsx:116 | the filtered list is no longer than its input and holds only input elements that pass the test |
| `Menu.WithoutId` | App.tsx:115-117 | after removal no record carries the id, and every remaining record came from the old list |
| `Menu.WithoutIdKeepsOthers` | App.tsx:116 | each record with another id keeps its exact number of occurrences; records with the id have none; the result is an order-preserving subsequence; the length never grows |
| `Menu.WithoutIdChangesIff` | App.tsx:116 | removal leaves the list unchanged exactly when no record has the id, and shortens it exactly when one does |
| `Menu.WithoutIdIdempotent` | App.tsx:116 | removing the same id twice gives the same list as removing it once |
| `Menu.SharedIdRemovesBoth` | App.tsx:99-117 | two dishes with the same clock id are both removed by one removal, so ids are not unique keys |
| `Menu.RemoveFirstOfTwo` | App.tsx:108-116 | with distinct ids, adding A then B and removing A's id leaves exactly [B] |
| `Menu.RemoveUndoesFreshAppend` | App.tsx:108-116 | appending a dish with a new id and then removing that id restores the previous list |
| `Views.ItemsOfCourse` | App.tsx:47 | every record selected for a course has that course and comes from the list |
| `Views.MeanPrice` | App.tsx:48-50 | the average of no records is 0; otherwise count copies of the average add up to the price total, i.e. average × count = total (`Views.RepeatedIsProduct` ties the repeated sum to the product) |
| `Views.Averages` | App.tsx:45-51 | one entry per course of the picker list, in picker order, each carrying that course's average |
| `Views.AveragesSpec` | App.tsx:45-51 | exactly three entries in the order Starters, Mains, Dessert; a course with no dishes shows 0; otherwise average × dish count (as a repeated sum) equals the total of the parsed prices |
| `Views.AverageOfSpec` | App.tsx:47-50 | a course's average is 0 without dishes, and average × dish count (as a repeated sum) gives its price total |
| `Views.AverageBetween` | App.tsx:49-50 | if every parsed price of a course lies in [lo, hi], so does its average |
| `Views.SumBetween` | App.tsx:49 | the price total of n records whose prices lie in [lo, hi] lies between n·lo and n·hi, written as repeated sums |
| `Views.SumPricesAppend` | App.tsx:49 | the running total of the reduce grows by the price of the record added at the end |
| `Views.ItemsOfCourseAppend` | App.tsx:47 | a dish appended to the menu is appended to its own course's records and to no other course's |
| `Views.AverageOfOtherCourseAfterAppend` | App.tsx:46-51 | adding a dish leaves the average of every other course unchanged |
| `Views.AverageOfOwnCourseAfterAppend` | App.tsx:46-51 | adding a dish makes its course's average (old total + price) / (old count + 1) |
| `Views.FilteredItems` | App.tsx:207-210 | "All" returns the menu unchanged; any other selector returns only dishes of that course |
| `Views.FilteredItemsExact` | App.tsx:210 | for a selected course the guest list is an order-preserving subsequence of the menu that keeps every dish of that course as often as it occurs and nothing else |
| `Views.CourseCountsSumToTotal` | App.tsx:70 | when every dish has one of the three courses, the three course counts add up to the total shown |
| `Views.SoupAndSteaks` | App.tsx:45-51 | a soup at 35 and steaks at 120 and 140 give averages 35, 130 and 0, and the Mains filter gives the two steaks in order |
| `Store.MenuStore.constructor` | App.tsx:257 | the store starts with an empty menu; the form starts with empty texts and course "Starters" |
| `Store.MenuStore.SetDishName` | App.tsx:141 | typing a name changes only the name field |
| `Store.MenuStore.SetDescription` | App.tsx:148 | typing a description changes only the description field |
| `Store.MenuStore.SetCourse` | App.tsx:153-161 | picking one of the three courses changes only the course field |
| `Store.MenuStore.SetPrice` | App.tsx:169 | typing a price changes only the price field |
| `Store.MenuStore.AddMenuItem` | App.tsx:99-113 | with an empty name, description or price nothing changes; otherwise the form's dish with id `now` is appended after all old dishes and the form resets to empty texts and "Starters" |
| `Store.MenuStore.RemoveMenuItem` | App.tsx:115-117 | the menu becomes the old menu without the id; no dish with the id remains; the length never grows; a missing id changes nothing; the form is untouched |
| `Store.MenuStore.Count` | App.tsx:178-180 | the item count is the list's length and equals the sum of the three course counts |
| `Store.SoupThenSteak` | App.tsx:99-117 | adding a soup and a steak with different clock readings and then removing the soup leaves only the steak |

## Left out

- Rendering, navigation, tab icons and the stylesheet (`App.tsx:53-88`, `119-198`, `212-252`, `259-422`) are presentation only.
- The React context and `useState` hooks are replaced by the fields of one `MenuStore` object. Stale closures and batched state updates are not modelled: each handler sees the current state.
- `Date.now()` is the `now` argument of `AddMenuItem`. JavaScript numbers are modelled as unbounded `int` ids.
- `parseFloat` is the `parse` parameter. `toFixed(2)` formatting of the averages is not modelled.
- `Views.MeanPrice`: JavaScript floating-point addition and division are modelled as exact real arithmetic, and `parse` is total. A price text that `parseFloat` turns into `NaN` would make the displayed average `NaN`, and that case is not captured.
- The Picker and TextInput widgets are left out. Their only effect kept here is that `SetCourse` requires one of the three picker values.
