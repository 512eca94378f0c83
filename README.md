# Hangman UI scripts in Dafny

This project models the browser scripts of a small hangman web site: the play page's `Game`
skeleton (countdown, keyboard layout, masked word hint), the `display-character` element
that hides or shows one letter, the home page's difficulty selection and start guard, the
toast notification's dismissal state machine, the two translation tables with their
English fall-back, and the two variants of the language and dialog control (`globals.js`
and the older `app.js`).

Each script is modelled in the form it is written in:
- Objects whose fields change become classes. Their `modifies` and `ensures` clauses state
  the whole new state: `Play.Game`, `DisplayCharacter.DisplayCharacterElement`,
  `Home.HomePage`, `Toasts.Toast`, `Dialogs.DialogSet`, `Globals.GlobalsPage` and
  `App.AppPage`.
- `forEach` loops become `for` loops with invariants.
- Lookups and layouts become functions, with lemmas about them.

The module `JsValues` holds the JavaScript notions the scripts rely on:
- `undefined`, `null` and strings;
- truthiness and `||`;
- `String(n)` and `parseInt(s, 10)`;
- `getAttribute`, and thrown `TypeError`s as a `Result`.

Timers, animation frames, clicks and channel messages are explicit method calls, made in
whatever order the caller chooses.

The dialog code in `globals.js` and `app.js` is the same text, so it is modelled once, in
`Dialogs`. `App.PreferenceMatchesGlobals` compares how the two variants choose a language.

## Model

| member | source | states |
|---|---|---|
| JsValues.Or | globals.js:18 | `a \|\| b` is the left operand when it is truthy and the right one otherwise. It is truthy iff either operand is |
| JsValues.ParseIntOfDigits | components/toast.js:133 | `parseInt` reads a non-empty string of decimal digits as its decimal value |
| JsValues.ParseIntOfNonNumeral | components/toast.js:188 | `parseInt` of a string that starts with neither white space, a sign nor a digit is NaN |
| JsValues.ParseIntOfNumberToString | components/toast.js:194-197 | `parseInt(String(n), 10)` gives back `n` for every integer, with `String(n)` written as the plain decimal numeral |
| Translations.GetTranslation | constants/translations.js:39-41 | Throws a TypeError iff the language has no table. Otherwise gives the language's own entry when it is truthy, else the "en-EN" entry (`undefined` when that is missing) |
| Translations.SupportedLanguages | constants/translations.js:1-37 | Exactly "en-EN" and "es-ES" have tables |
| Translations.TableKeys | constants/translations.js:1-37 | Both tables define the same keys |
| Translations.KeyCount | constants/translations.js:1-37 | There are eleven keys |
| Translations.EntriesNonEmpty | constants/translations.js:1-37 | No entry is the empty string |
| Translations.NoFallbackForSupportedKeys | constants/translations.js:40 | A supported language gives its own non-undefined text for every shared key |
| Translations.EnglishIsItsOwnEntry | constants/translations.js:40 | For "en-EN" the result is exactly the English entry |
| Translations.UnknownKeyIsUndefined | constants/translations.js:40 | A key missing from both tables gives `undefined` |
| Translations.SupportedKeysTranslate | constants/translations.js:39-41 | For a supported language, every key gives its own text when it is in the tables and `undefined` when it is not |
| Translations.RenderedTexts | globals.js:30-32 | The innerHTML written for each keyed element is the language's text for a known key and "undefined" for any other |
| LegacyTranslations.SameTableAsConstants | translations.js:1-28 | The older table equals the newer one |
| LegacyTranslations.GetTranslation | translations.js:30-32 | Gives the same result as the newer lookup for every language and key, so it throws iff the language is unsupported |
| DisplayCharacter.RenderedText | components/display-character.js:23 | Something is rendered only when `show` is "true", and then it is the character's string form |
| DisplayCharacter.ShownIffTrue | components/display-character.js:20-25 | A non-empty character is rendered iff `show` is exactly "true". Any other value renders nothing |
| DisplayCharacter.DisplayCharacterElement.Render | components/display-character.js:20-25 | The rendered text depends on `character` and `show` alone. No other field changes |
| DisplayCharacter.DisplayCharacterElement.ConnectedCallback | components/display-character.js:6-11 | Reads `character` and `show` from the attributes (`null` when absent). Sets `dataset.displayKey` to the character's string form, then renders |
| DisplayCharacter.DisplayCharacterElement.AttributeChangedCallback | components/display-character.js:13-18 | Re-renders iff the attribute is `show` and its value changed. `show` becomes the new value |
| DisplayCharacter.DisplayCharacterElement.SetAttribute | components/display-character.js:2-4 | Only `show` is observed. Setting any other attribute, `character` included, never re-renders. Setting `show` to its current value does nothing either |
| Play.LayoutLetters | pages/play/script.js:3-7 | The rows have 10, 9 and 7 keys, reading "qwertyuiop", "asdfghjkl" and "zxcvbnm" |
| Play.LayoutDistinctAlphabet | pages/play/script.js:3-7 | The layout's letters are pairwise distinct and are exactly a–z |
| Play.KeyboardHasEachLetterOnce | pages/play/script.js:3-7 | Each lowercase letter occurs exactly once on the keyboard, and no other character occurs |
| Play.RowButtons | pages/play/script.js:45-49 | One button per key of the row, in order. Each has `data-key` and text equal to its letter |
| Play.KeyboardButtons | pages/play/script.js:41-60 | One row of buttons per layout row, with the row's length, each button carrying its letter |
| Play.HintCells | pages/play/script.js:66-75 | One cell per letter of the word, in order. Each has `character` equal to that letter and `show` equal to "false" |
| Play.HintHidesWord | pages/play/script.js:68-75 | A fresh hint displays nothing |
| Play.RevealedHintSpellsWord | pages/play/script.js:68-75 | Setting every cell's `show` to "true" displays exactly the word |
| Play.TickedCountdown | pages/play/script.js:85-86 | One firing takes exactly one second off a positive countdown and leaves 0 at 0. It never increases |
| Play.CountdownAfterTicks | pages/play/script.js:84-89 | After n ticks the countdown is `max(countdown - n, 0)` |
| Play.CountdownRunsOut | pages/play/script.js:84-89 | From 120 the countdown never increases and stays within 0..120. It is 0 after 120 ticks |
| Play.Game.constructor | pages/play/script.js:20-25 | A new game is PLAYING, with countdown 120 and an empty word |
| Play.Game.DisplayKeyboard | pages/play/script.js:38-61 | Appends exactly the layout's buttons. Nothing else changes |
| Play.Game.DisplayWordHint | pages/play/script.js:63-76 | Appends exactly the word's hint cells. Nothing else changes |
| Play.Game.DisplayCountdown | pages/play/script.js:78-91 | Out of play it writes "Paused" and starts no ticker. In play it starts one ticker. The countdown is unchanged either way |
| Play.Game.Tick | pages/play/script.js:85-88 | A positive countdown drops by exactly 1 and its numeral is written. At 0 nothing changes. 0 ≤ countdown ≤ 120 is kept |
| Play.Game.Setup | pages/play/script.js:32-36 | Keyboard, then hint, then countdown, with exactly the effects of the three |
| Play.Game.Init | pages/play/script.js:27-30 | The word is stored and the page is set up iff the word arrived, with exactly the effects of `setup` ("Paused" out of play, one ticker in play). A failed fetch sets nothing up and passes the rejection on |
| Play.LoadPage | pages/play/script.js:98-99 | Loading the page gives a playing game with countdown 120 that has written nothing into the countdown element yet (it still shows the page's own markup). It holds the fetched word with keyboard, hint and one ticker set up, or an empty word and nothing shown |
| Home.StartButtonAction | pages/home/script.js:30-40 | Navigates iff the selection is truthy, to `../play/index.html?difficulty=` followed by the selection. Otherwise it alerts the fixed message |
| Home.OnlySelected | pages/home/script.js:14-22 | After a click, the clicked card and no other carries `selected` |
| Home.HomePage.constructor | pages/home/script.js:5-8 | Nothing is selected in the script at first: `selectedDifficulty` is `null` |
| Home.HomePage.ClickCard | pages/home/script.js:11-27 | Afterwards the clicked card alone is selected and `selectedDifficulty` is its `difficulty` attribute. The deselect branch is proved unreachable |
| Home.HomePage.ClickStart | pages/home/script.js:30-40 | Navigates iff `selectedDifficulty` is truthy, with the action above |
| Home.ClickTwiceThenStart | pages/home/script.js:14-23 | Clicking the same card twice leaves that card and no other selected, and start then navigates iff its attribute is non-empty |
| Toasts.ParseTimeout | components/toast.js:133 | A missing or empty `timeout` attribute means 4000. Any other is parsed by `parseInt` |
| Toasts.ParseTimeoutDefaultsToNumeral | components/toast.js:188 | That is `parseInt(attribute \|\| "4000", 10)` |
| Toasts.TimeoutAttributeRoundTrip | components/toast.js:197 | A timeout written as its numeral reads back as itself |
| Toasts.ArmsTimer | components/toast.js:239 | A timer is armed iff the timeout is NaN or a positive number |
| Toasts.ShownTimeout | components/toast.js:194-197 | The effective timeout of `Toast.show` is never 0. A non-zero option is kept. An omitted option or 0 gives 4000 |
| Toasts.SwipeDismisses | components/toast.js:286-288 | A drag dismisses iff \|dx\| > 120 or 5·\|dx\| > 2·width. A drag of 0 never dismisses |
| Toasts.Toast.constructor | components/toast.js:126-137 | Timeout parsed from the attribute, no timer, pointer inactive at 0, not dismissed |
| Toasts.Toast.AttributeChangedCallback | components/toast.js:187-190 | A `timeout` change re-parses the timeout. Nothing else changes |
| Toasts.Toast.Show | components/toast.js:194-203 | The new toast's timeout is the effective timeout above. Every other field is as the constructor sets it |
| Toasts.Toast.StartTimer | components/toast.js:238-241 | Does nothing when the timeout is a number ≤ 0 (NaN arms). Otherwise arms a fresh timer and leaves any earlier one scheduled |
| Toasts.Toast.ClearTimer | components/toast.js:243-248 | `_timer` is null afterwards. Only the timer it held is cancelled. With no timer it does nothing |
| Toasts.Toast.Close | components/toast.js:206-222 | Idempotent: once dismissed, nothing changes. The first call marks the toast dismissed, cancels the timer and exits towards the drag offset (or -200). It emits exactly one close event carrying its reason |
| Toasts.Toast.CloseButtonClick | components/toast.js:233-236 | The first click closes with "button", with every effect of `close`. Later clicks change nothing |
| Toasts.Toast.TimeoutFires | components/toast.js:240 | The expired timer is no longer pending. Unless the toast is already dismissed, it closes with "timeout", with every effect of `close`. A dismissed toast is otherwise unchanged |
| Toasts.Toast.EntryFrame | components/toast.js:163-168 | Emits the open event, then starts the timer |
| Toasts.Toast.MouseEnter | components/toast.js:250-252 | Hovering clears the timer |
| Toasts.Toast.MouseLeave | components/toast.js:253-255 | Leaving re-arms the timer |
| Toasts.Toast.PointerDown | components/toast.js:257-267 | The drag becomes active at `clientX` with offset 0, and the timer is cleared. Nothing else changes |
| Toasts.Toast.PointerMove | components/toast.js:269-273 | Records the offset only while a drag is active. Otherwise nothing changes |
| Toasts.Toast.PointerUp | components/toast.js:280-314 | Without an active drag nothing changes. A far enough drag exits to +200 or -200 in its direction and emits a "swipe" close, without marking the toast dismissed. A short drag re-arms the timer |
| Toasts.Toast.ExitAnimationEnd | components/toast.js:219-231 | Every exit listener dispatches a dismissed event, in order. The first removal cancels the held timer through `disconnectedCallback`. Nothing else changes |
| Toasts.DismissedEvents | components/toast.js:228-230 | One dismissed event per exit listener, in order, carrying its reason |
| Toasts.SwipeThenClose | components/toast.js:288-302 | After a swipe, `close()` still runs: two close events, "swipe" then "api" |
| Toasts.OverwrittenTimerStillFires | components/toast.js:238-241 | A timer overwritten by a second `_startTimer` stays scheduled. It closes the toast with "timeout" even while the pointer hovers it |
| Dialogs.Find | globals.js:76-78 | The first dialog with the given name, or the count of dialogs iff none has it |
| Dialogs.ClosedOutside | globals.js:85-96 | Closed dialogs stay closed. An open dialog containing the target stays open. Any other open dialog closes iff the target is outside every trigger |
| Dialogs.ClosedOutsideIdempotent | globals.js:85-96 | A second outside click on the same target closes nothing more |
| Dialogs.TriggerClickClosesNothing | globals.js:88-90 | A click inside a trigger leaves every dialog as it is |
| Dialogs.DialogSet.ToggleFor | globals.js:72-82 | Toggles the first dialog with the trigger's name and no other. It throws iff no dialog has that name |
| Dialogs.DialogSet.CloseOutside | globals.js:85-96 | The open set after a document click is exactly the one `ClosedOutside` describes |
| Dialogs.DialogSet.ClickTrigger | app.js:59-83 | A click on a trigger toggles its dialog, and the document handler that follows does not undo it |
| Dialogs.ToggleTwice | app.js:59-69 | Two clicks on the same trigger restore every dialog |
| Globals.PreferredLanguage | globals.js:16-18 | The stored value if truthy, else the browser language if non-empty, else "en-EN". Always a non-empty string |
| Globals.GlobalsPage.AddKeyedElement | globals.js:27-28 | A keyed element added later is among those the handlers query |
| Globals.GlobalsPage.TranslateAll | globals.js:28-32 | Throws iff the language is unsupported and some keyed element exists, and then leaves every text unchanged. Otherwise every element gets its translation |
| Globals.GlobalsPage.OnLoad | globals.js:15-33 | With nothing stored and a language link present, it throws before storing or translating. With nothing stored and no link, it stores "en-EN". It then translates with the preferred language |
| Globals.GlobalsPage.OnLanguageClick | globals.js:35-46 | Posts the link's code on the channel and stores it. Texts unchanged |
| Globals.GlobalsPage.OnLanguageMessage | globals.js:49-59 | Translates every keyed element present now into the received language, or throws as above |
| Globals.FirstVisitWithRegionalBrowserLanguage | globals.js:15-33 | A first visit with browser language "en-US" and no link stores "en-EN". It then throws on the first keyed element |
| Globals.BroadcastReachesLaterElements | globals.js:49-59 | An element added after start receives the broadcast language's text |
| App.PreferredLanguage | app.js:12-13 | The stored value if truthy, else the browser language |
| App.PreferenceMatchesGlobals | app.js:13 | The two variants choose alike iff something is stored or the browser language is non-empty |
| App.AppPage.TranslateAll | app.js:19-21 | The elements found at start get their translations from the older table. Throws iff the language is unsupported and some element exists, then with texts unchanged |
| App.AppPage.OnLoad | app.js:11-22 | With nothing stored and no link, it throws before translating. With nothing stored, it stores the first link's code. Either way it renders with the preference chosen before |
| App.AppPage.OnLanguageClick | app.js:24-35 | Posts the link's code on the channel and stores it |
| App.AppPage.OnLanguageMessage | app.js:38-46 | Translates the elements found at start into the received language, or throws |
| App.FirstVisitStoresFirstLink | app.js:11-22 | With links "es-ES" then "en-EN" and a browser reporting "en-EN", "es-ES" is stored while the page shows English |

## Left out

- Guess handling: the key buttons call `useKey` (pages/play/script.js:53), which is defined nowhere, and `checkForKeyPress` is empty. Buttons are modelled without click behaviour, and there are no guessed letters, attempts, or win or lose states.
- pages/play/utils.js is not part of this model. The word is an input to `Play.Game.Init`, a failed fetch is a thrown result, and the difficulty in the URL is never read by the play page.
- utils.js is not part of this model. `localStorage` with its JSON round trip is a field holding the parsed value, limited to strings and `null`. `getRandomInt` is not modelled (`Math.random` and floating point).
- components/difficulty-card.js and the `DifficultyCard` class of app.js are not part of this model (random rotation and HTML templating). Their keyed elements enter only as `Globals.GlobalsPage.AddKeyedElement`.
- Timers, animation frames and messages are explicit calls:
  - `setInterval`, `setTimeout`, `requestAnimationFrame` and `BroadcastChannel` delivery are each a method call.
  - `Play.Game.DisplayCountdown` counts the intervals it starts, but all of them drive the same `Play.Game.Tick`.
  - Ticks from overlapping intervals are not told apart.
- Toast presentation is not modelled:
  - CSS, shadow DOM and classes other than the exit animation;
  - the transform, opacity and transition writes, and the delayed transition reset;
  - the entry `animationend` listener, pointer capture, and listener (de)registration.
- Toast width and pointer positions: `offsetWidth` is an integer input to `Toasts.Toast.PointerUp`, and `clientX` is an integer input to `Toasts.Toast.PointerDown` and `Toasts.Toast.PointerMove`. In the browser `clientX` is a double and can be fractional. The swipe rule reads the same over reals.
- `connectedCallback` of the toast: the container insertion and the `type` attribute handling are left out. The entry frame it schedules is `Toasts.Toast.EntryFrame`. The element is registered under the name "toast". That is not a valid custom element name under the HTML Living Standard (it has no hyphen), so the class logic is modelled as written, apart from registration.
- Toasts.Toast.AttributeChangedCallback: the `type` branch (components/toast.js:189) is not modelled. It sets the observed `type` attribute again from inside its own callback, which calls the callback again without end. Only the `timeout` branch is modelled.
- Toasts.Toast.Show: only the `timeout` option is modelled, and only as an integer. The `html`, `text` and `type` options and the append to `document.body` are left out.
- Toasts.Toast.ExitAnimationEnd: one `animationend` runs every pending exit listener; the animation names are not told apart.
- DOM queries and containment are inputs:
  - `contains` and `closest` are booleans per click;
  - dialogs are a list of `data-dialog` names;
  - a name that changes or breaks the attribute selector (one with a double quote, a backslash or a line break) is treated as an ordinary name.
- Alerts and navigation are returned as a `Home.StartAction` value. `console.log` is left out.
- Characters: `word.split("")` splits UTF-16 code units, but the model splits Dafny characters. The two agree for every word without characters outside the Basic Multilingual Plane.
- `parseInt`: the result is an unbounded integer. Float rounding of very long numerals and the value `-0` are not modelled.
- JsValues.ParseIntOfNumberToString: `String(n)` is modelled as the plain decimal numeral for every integer. JavaScript writes numbers from 1e21 on in exponent notation (`String(1e21)` is "1e+21", which `parseInt` reads as 1), and it does not hold integers beyond 2^53 exactly. For such timeouts the round trip fails in JavaScript.
- Toasts.ShownTimeout: "a non-zero option is kept" holds in JavaScript only for timeouts below 1e21 that are exactly representable, for the reason above.
- Play.Game.Init: the input is the settled word request, and a resolved word is always a string. `getRandomWord` resolves to `undefined` when the first entry of the response has no `word` (pages/play/utils.js:21). Then `setup` appends the keyboard and throws in `displayWordHint` at `this.word.split` (pages/play/script.js:66). That outcome is not modelled. A failed request rejects with `Error("Word could not be fetched.")` (pages/play/utils.js:23), which is `Throw(Error(...))` here.
- Property lookup on the translation objects ignores inherited `Object.prototype` members: in JavaScript a key such as "constructor" would find one, but here it is missing.
