# Portfolio page scripts: typing animation and timeline decorator

This project models, in Dafny, the two pieces of logic in the portfolio site's
`js/scripts.js` that can be stated without a browser:

- **The lead typing animation.** Three module-level variables hold the list of
  strings to type, the index of the current one and the number of its characters
  shown. Two timer callbacks, `typeNextText` and `eraseText`, each do one step on
  these variables and on the text of `#lead-text-span`. They type a character, pause
  with the string complete, erase a character, or move on to the next string
  cyclically, and then schedule the next callback. The page's ready handler first
  collects the strings from the `#lead-texts-to-type span` elements, in document
  order, and then calls `typeNextText` once.
- **The timeline decorator `createTimeline`.** Every direct `div` child of a
  timeline container gets the class `vtimeline-content` and is wrapped in place as
  `div.vtimeline-point[ div.vtimeline-icon[ i.<iconClass> ], div.vtimeline-block[ span.vtimeline-date?, entry ] ]`.
  This happens in three passes: wrap, prepend icons, prepend dates. The experience
  and education timelines are each decorated once, at load.

Layout:

- `wrappers.dfy` (module `Wrappers`): an `Option` type.
- `typing.dfy` (module `Typing`) covers the animation:
  - `TypeStep` and `EraseStep` are the two callbacks as functions on a `TypingState` value. The lemmas `TypeStepEffect` and `EraseStepEffect` state what each does.
  - Each returns the new state together with the schedule: the next callback and its delay (50, 2000, 30 or 500 ms).
  - The class `TypingAnimation` holds the four variables (`texts`, `textIndex`, `charIndex`, `rendered`).
  - Its methods update those fields in place, and each method's contract ties the new state to the step function.
  - `Run` iterates the steps. The lemmas describe a typing phase, an erasing phase, a full cycle, and a rotation through every string back to the start.
- `timeline.dfy` (module `Timeline`) covers the decorator:
  - A container is its ordered sequence of direct children. A child is an undecorated `div` entry (`Raw`), any other element (`Other`), or a decorated point (`Point`).
  - `Timeline` gives the intended decorated form.
  - The class `Container` holds the children. Its methods `WrapEntries`, `PrependIcons` and `PrependDates` are the three passes of the source, each a loop that rewrites the children in place. `CreateTimeline` runs them in order and is proved equal to `Timeline`.
  - Lemmas state what the decoration preserves and adds.

The invariant of the animation is `Valid`:
- `texts` is non-empty;
- `textIndex` is in range;
- `charIndex` is at most the length of the current string;
- the span shows exactly `texts[textIndex][..charIndex]`.

Both steps preserve it, and so does any number of firings (`RunKeepsValid`). It rests on the span being
empty when the page loads. The span is written only by the two callbacks.

What the script does not do, and the model does not either:
- it has no reset of the animation and no undo of the timeline decoration;
- `createTimeline` assumes an undecorated container (running it twice would wrap the points again);
- an empty list of strings makes the first step throw (js/scripts.js:64-66), so the animation never starts.

## Model

| member | source | states |
|---|---|---|
| Typing.TypingAnimation.constructor | js/scripts.js:48-50 | the animation starts with no strings, both indices 0 and the span empty |
| Typing.TypingAnimation.CollectTexts | js/scripts.js:54-56 | the loop appends the span texts to `texts` in document order and leaves both indices and the span unchanged |
| Typing.TypingAnimation.OnReady | js/scripts.js:52-60 | after start-up, `texts` is exactly the span texts. With no span, nothing is scheduled because the first step throws. Otherwise the state is the type step from index 0 and the invariant holds |
| Typing.TypingAnimation.TypeNextText | js/scripts.js:62-73 | updating the fields in place gives exactly the type step of the old state and its schedule, and keeps the invariant |
| Typing.TypingAnimation.EraseText | js/scripts.js:75-85 | updating the fields in place gives exactly the erase step of the old state and its schedule, and keeps the invariant |
| Typing.TypeStepEffect | js/scripts.js:62-73 | of `TypeStep`, the function for `typeNextText`: the list and index never change. Below the string's length, the step appends exactly the next character of the string, increments `charIndex` and schedules typing after 50 ms. At full length it changes nothing and schedules erasing after 2000 ms. The invariant is preserved |
| Typing.EraseStepEffect | js/scripts.js:75-85 | of `EraseStep`, the function for `eraseText`: the list never changes. With characters shown, the step drops exactly the last one, decrements `charIndex`, keeps the index and schedules erasing after 30 ms. At 0 it sets `textIndex` to `(textIndex + 1)` modulo the number of strings, leaves the span empty and schedules typing after 500 ms. The invariant is preserved |
| Typing.DropLast | js/scripts.js:78 | `slice(0, -1)` removes exactly the last character, and the empty text stays empty |
| Typing.Step | js/scripts.js:62-85 | firing the pending callback keeps the list and keeps the current index inside it |
| Typing.Next | js/scripts.js:69-83 | the configuration after the pending callback fires once keeps the list and an in-range index |
| Typing.Run | js/scripts.js:62-85 | any number of firings keeps the list unchanged and the current index inside it |
| Typing.RunKeepsValid | js/scripts.js:62-85 | at every observation point the invariant holds: the span shows exactly the first `charIndex` characters of the current string |
| Typing.RunAdd | js/scripts.js:69-83 | `m + n` timer firings are `m` firings followed by `n` firings |
| Typing.TypingPhase | js/scripts.js:66-69 | `k` typing firings show `k` more characters of the current string and keep the type callback pending |
| Typing.ErasingPhase | js/scripts.js:77-80 | `k` erasing firings remove the last `k` characters and keep the erase callback pending |
| Typing.TypeThenRead | js/scripts.js:66-72 | from an empty span, typing the whole string and the read pause leave it fully shown with erasing pending |
| Typing.EraseThenAdvance | js/scripts.js:77-84 | erasing every shown character and the move leave the span empty at the next string, cyclically, with typing pending |
| Typing.FullCycle | js/scripts.js:62-85 | one type-then-erase cycle of twice the length of the current string plus two firings returns `charIndex` to 0 with the span empty and moves to the next string cyclically |
| Typing.Rotation | js/scripts.js:62-85 | `k` cycles make string `(textIndex + k)` modulo the number of strings current, so every string is visited in order, cyclically |
| Typing.BackToStart | js/scripts.js:82 | one cycle per string brings the animation back to exactly its starting configuration |
| Timeline.AddClass | js/scripts.js:94 | `addClass` keeps the existing classes in order, adds only the new class, at the end, and changes nothing when it is already present |
| Timeline.Truthy | js/scripts.js:104-105 | a missing date and an empty date are falsy, and a truthy date is non-empty |
| Timeline.Wrap | js/scripts.js:94 | a `div` entry becomes a point with no icon yet, holding a block with no date yet around the entry marked as content; any other child is unchanged |
| Timeline.PrependIcon | js/scripts.js:98-100 | a point gets an icon carrying `iconClass` in front of its existing icons, its block untouched; any other child is unchanged |
| Timeline.PrependDate | js/scripts.js:103-107 | a point whose entry has a truthy date gets a span holding that date in front of the block's existing date spans; otherwise it is unchanged, as is any other child |
| Timeline.Decorate | js/scripts.js:90-107 | the intended end form of a child: a `div` entry becomes a point with exactly the one icon `iconClass`, the entry marked as content, and a date span exactly when its date is truthy; any other child is unchanged |
| Timeline.PassesDecorate | js/scripts.js:93-108 | the three passes in order turn an undecorated child into exactly its intended end form |
| Timeline.Timeline | js/scripts.js:90-108 | decoration keeps the number of children |
| Timeline.TimelineAt | js/scripts.js:93-108 | the child at each position becomes the decorated form of the child that was there |
| Timeline.EntriesPreserved | js/scripts.js:90-95 | the entries inside the points are the container's direct `div` children, in the same order and number, each marked as content |
| Timeline.ReplacedInPlace | js/scripts.js:90-95 | a position holds a point afterwards if and only if it held a `div` entry, and every other child is left where it was, unchanged |
| Timeline.IconExact | js/scripts.js:98-100 | every point has exactly one icon, placed before its block and carrying exactly `iconClass` |
| Timeline.ContentClassAdded | js/scripts.js:94 | an entry keeps its classes, date and markup, and gains `vtimeline-content` unless it already had it |
| Timeline.DateIffTruthy | js/scripts.js:103-107 | a block starts with a date span if and only if the entry's `data-date` is present and non-empty, and then it has exactly one span holding that date |
| Timeline.Container.WrapEntries | js/scripts.js:90-95 | the first pass rewrites every child in place to its wrapped form, keeping the number of children |
| Timeline.Container.PrependIcons | js/scripts.js:98-100 | the second pass rewrites every child in place to its form with an icon prepended, keeping the number of children |
| Timeline.Container.PrependDates | js/scripts.js:103-108 | the third pass rewrites every child in place to its form with a date span prepended when the date is truthy, keeping the number of children |
| Timeline.Container.CreateTimeline | js/scripts.js:88-109 | the three in-place passes turn an undecorated container's children into exactly their decorated form |
| Timeline.DecorateTimelines | js/scripts.js:111-119 | each timeline present on the page is decorated once: the experience timeline with `fa fa-briefcase`, the education timeline with `fa fa-graduation-cap` |

## Left out

- Timers (js/scripts.js:69, 71, 80, 83): a step returns the next callback and its delay instead of calling `setTimeout`. No real time or concurrency is modelled.
- Typing.TypeNextText, Typing.EraseText: these require the invariant, so a non-empty list. Once the first step has thrown on an empty list, no timer is ever set, so no later step runs. The throw itself is modelled in `OnReady` as "nothing scheduled".
- Strings are sequences of Unicode scalar values. JavaScript's `length` and `charAt` count UTF-16 code units, so the browser types a character outside the Basic Multilingual Plane in two steps, and the model in one.
- The span is assumed empty when the page loads. Its initial markup is not part of this model.
- Without a `#lead-text-span` element on the page the timers still run but nothing is shown: jQuery's `.text()` on an empty selection reads "" and writes nowhere. The model always has a span, so `rendered` then stands for text that is not displayed.
- Timeline.Truthy: models jQuery's `.data('date')` as the raw attribute text. jQuery coerces values such as `"0"`, `"false"` and `"null"` to falsy values, so such dates get no span in the browser, but do here.
- The date is concatenated into HTML markup (js/scripts.js:106). The model keeps it as plain text.
- `find` searches the entries' own markup too. The model treats that markup as opaque, so it assumes no element inside an entry carries `vtimeline-point` or `vtimeline-content`.
- Timeline.Container.CreateTimeline: requires a container with no prior decoration. The code has no undo step, and a second call would wrap the points again.
- The DOM and jQuery mechanics (selectors, `.wrap`, `.prepend`) are abstracted into the child sequence.
- Smooth-scroll anchors (js/scripts.js:21-45), the current-year text and `no-js` removal (16-19), the mobile menu and the "view more projects" fade (122-137): browser I/O and UI wiring, not modelled.
- The back-to-top button, `syncProjectHeights` and `resetForms` (139-192): layout- and event-dependent listeners, not modelled.
- Translation loading, locale switching and resetting the animation: not present in `js/scripts.js`, so not modelled.
