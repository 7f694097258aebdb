# Cart and menu panels of a carpet storefront, in Dafny

This project models the logic of the two slide-in panels of the storefront.

- **Cart panel** (`cart.dfy`, module `CartSidebar`). Its total is a left fold of `price * quantity` over the line items, starting from 0. Its view is a pure function of the props: the empty-cart message, or one row per item followed by the total line. Its removal flow sends one request to the cart service naming the clicked row's `productId`. On success it calls the owner's `onProductRemoved` once. On failure it swallows the error.
- **Menu panel** (`menu.dfy`, module `MenuSidebar`). Its single piece of state, `activeDropdown`, starts as none. The toggle closes the section if it is the open one and opens it otherwise. Its view shows the "À PROPOS" sub-links and turns the chevron exactly when that section is open. The theme label follows `isDarkMode`. The slide position follows `isOpen`.

Prices and quantities are integers: the shop's amounts are whole dirhams (MAD).

The cart service is an `Outcome` parameter (`Success` or `Failure`) of the removal method. The method appends the request it sends to the panel's `requests` log. Calls of the owner's callbacks are counters on the panel objects. The cart panel's props are `const` fields, so no panel method can change the list it was given. The menu panel holds no theme or visibility state: those are parameters of its `Render`.

A double toggle of the accordion is not idempotent in general: it restores the state only from none or from the same title. If another section was open, toggling `t` twice leaves everything collapsed: "À PROPOS", then "X", then "X" ends with none open (`ToggleTwice`, `ToggleTwiceFromOther`). The panel only ever toggles "À PROPOS", so every state it can reach is none or "À PROPOS", and from those the double toggle does restore the state (`AboutClicks`).

## Model

| member | source | states |
|---|---|---|
| CartSidebar.ReduceIsSum | src/components/CartSidebar.tsx:20 | the left-to-right `reduce` from any start value equals that value plus the recursive sum of `price * quantity` |
| CartSidebar.Total | src/components/CartSidebar.tsx:20 | the total (the fold from 0) is the sum of `price * quantity` over all items, and 0 for an empty cart |
| CartSidebar.TotalAppend | src/components/CartSidebar.tsx:20 | the total of a concatenation is the sum of the two totals |
| CartSidebar.TotalSplit | src/components/CartSidebar.tsx:20 | splitting the list at any point, the totals of the two parts add up to the total |
| CartSidebar.TotalPermutation | src/components/CartSidebar.tsx:20 | two lists holding the same items in any order have the same total |
| CartSidebar.TotalNonNegative | src/components/CartSidebar.tsx:20 | when no price or quantity is negative, the total is not negative |
| CartSidebar.TotalWithout | src/components/CartSidebar.tsx:20 | dropping one line lowers the total by exactly that line's `price * quantity` |
| CartSidebar.TotalExample | src/components/CartSidebar.tsx:20 | lines 250 x 1 and 75 x 3 total 475 |
| CartSidebar.Rows | src/components/CartSidebar.tsx:44-60 | one row per item, in list order; row i shows item i's id as key, its name, its quantity, `price * quantity` as amount, and its `productId` as the remove target |
| CartSidebar.RowsSumIsTotal | src/components/CartSidebar.tsx:44-64 | the amounts shown on the rows add up to the total shown below them |
| CartSidebar.Transform | src/components/CartSidebar.tsx:32 | the panel is slid in (`translate-x-0`) exactly when `isOpen` |
| CartSidebar.Render | src/components/CartSidebar.tsx:40-66 | the empty-cart message is shown exactly when the list is empty; otherwise one row per item showing its key, name, quantity, subtotal and remove target, and a total equal to the sum and to the sum of the row amounts |
| CartSidebar.CartPanel.constructor | src/components/CartSidebar.tsx:19 | a rendering holds the props it was given; no request sent, no callback called |
| CartSidebar.CartPanel.RemoveFromCart | src/components/CartSidebar.tsx:22-29 | exactly one request naming `productId` is appended to the log; `onProductRemoved` is called once on success and not at all on failure; the props are constant |
| CartSidebar.CartPanel.ClickRemove | src/components/CartSidebar.tsx:53 | the row's button sends the row's `productId` (the rendered row's remove target), not its `id`, then follows the removal protocol |
| CartSidebar.CartPanel.Close | src/components/CartSidebar.tsx:34 | the close button calls `onClose` once and changes nothing else |
| CartSidebar.RemoveOnlyLine | src/components/CartSidebar.tsx:22-29 | a cart with row id 1 for product 7 at 100 x 2 shows one row of 200 and a total of 200; removing it sends exactly one request, for product 7, and calls back once on success, never on failure |
| CartSidebar.RemoveTwoLines | src/components/CartSidebar.tsx:22-29 | removing products 7 and 9 sends both requests; the callback count is the number of successes, so a failure does not suppress the other removal's callback |
| MenuSidebar.Toggle | src/components/MenuSidebar.tsx:14 | the result is none exactly when the toggled title was the open one; otherwise the toggled title is the open one |
| MenuSidebar.ToggleTwice | src/components/MenuSidebar.tsx:13-15 | a double toggle of one title restores the state iff nothing or that title was open; from another open title it collapses everything |
| MenuSidebar.ToggleTwiceFromOther | src/components/MenuSidebar.tsx:13-15 | "À PROPOS", "X", "X" ends with none open, and so does "X", "X" |
| MenuSidebar.LastToggleWins | src/components/MenuSidebar.tsx:13-15 | after any non-empty run of toggles, nothing is open or the last title toggled is |
| MenuSidebar.ToggleAllSnoc | src/components/MenuSidebar.tsx:13-15 | one more click toggles the state the earlier clicks left |
| MenuSidebar.LastOpenIff | src/components/MenuSidebar.tsx:13-15 | the last title toggled is open iff it was not open just before that click |
| MenuSidebar.ToggleRepeat | src/components/MenuSidebar.tsx:13-15 | k clicks on one title: no change for 0, a single toggle for odd k, a double toggle for even k > 0 |
| MenuSidebar.AboutClicks | src/components/MenuSidebar.tsx:43 | from the initial state, "À PROPOS" is open after an odd number of clicks on its button and none is open after an even number |
| MenuSidebar.AtMostOneExpanded | src/components/MenuSidebar.tsx:11 | of any list of section titles, at most one is expanded |
| MenuSidebar.Render | src/components/MenuSidebar.tsx:19-86 | slid in iff `isOpen`; chevron rotated iff "À PROPOS" is open; its three sub-links shown iff it is open; label "Mode clair" iff `isDarkMode`, "Mode sombre" otherwise |
| MenuSidebar.RenderDependencies | src/components/MenuSidebar.tsx:19-86 | the slide position depends only on `isOpen`, the theme label only on `isDarkMode`, the sub-links and chevron only on whether "À PROPOS" is open |
| MenuSidebar.MenuPanel.constructor | src/components/MenuSidebar.tsx:11 | the accordion starts with no section open and no callback called |
| MenuSidebar.MenuPanel.ToggleDropdown | src/components/MenuSidebar.tsx:13-15 | the new state is `Toggle` of the old state and the title; nothing else changes |
| MenuSidebar.MenuPanel.ClickAbout | src/components/MenuSidebar.tsx:42-45 | the "À PROPOS" button toggles that title |
| MenuSidebar.MenuPanel.Close | src/components/MenuSidebar.tsx:22 | the close button calls `onClose` once and leaves the accordion state alone |
| MenuSidebar.MenuPanel.ClickTheme | src/components/MenuSidebar.tsx:84 | the theme control calls `toggleDarkMode` once and leaves the accordion state alone |
| MenuSidebar.AboutScenario | src/components/MenuSidebar.tsx:42-64 | from a fresh panel, one click on "À PROPOS" shows its sub-links with the chevron turned even after close and theme clicks; a second click hides them |

## Left out

- The HTTP call and its fixed localhost endpoint: the cart service is the `Outcome` parameter of `RemoveFromCart`, and the request is its body's one field, the product id.
- Asynchronous scheduling: each removal runs to completion in one call, so several removals in flight with completions in any order are modelled only as calls in some sequence (`RemoveTwoLines`).
- Floating-point prices: amounts are unbounded integers, so rounding is not modelled.
- The `console.error` diagnostic in the failure branch: it is logging only.
- Markup and styling: Tailwind classes other than the slide transform and the chevron rotation, SVG icons, the static top-level links, the social icons and the footer text.
- The "MAD" suffix and number-to-string formatting of amounts.
- The "Passer la commande" button: it has no handler.
- The owner component that supplies the props, holds the theme and re-renders after `onProductRemoved`: it is outside these two files.
