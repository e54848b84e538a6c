# Study-site page controllers, modelled in Dafny

The site's browser script (`script.js`) wires four small per-page state machines to the
page. This project models those four, with the page abstracted away: element texts and
CSS class sets become fields, rendered markup becomes values (option buttons, track
cards), and the browser's `localStorage` becomes a shared `LocalStorage` object holding a
`map<string, string>`.

- `theme.dfy` — the light/dark switch (`handleThemeToggle`): the body's `dark-mode`
  class as a flag, the icon derived from it, and the `theme` key written on each click.
- `language.dfy` — the home page's language switcher (`handleIndexPage`): the
  `pt`/`en`/`es` dictionary, `applyTranslation`, the dropdown's `show` class, and the
  saved language applied on load (default `pt`).
- `quiz.dfy` — the quiz page (`handleQuizPage`): the two fixed questions, the
  `quizIndex`/`respostaSelecionada` state, the `correta`/`errada` feedback classes on the
  option buttons, and the "next" button that cycles modulo the question count.
- `tracks.dfy` — the track page (`handleTrilhasPage`): an in-memory list of names,
  extended from a prompt answer after JavaScript's `trim`, and rendered as a placeholder
  or as one card per name.
- `storage.dfy`, `wrappers.dfy` — the store and an `Option` type (`null` results).

Each controller is a class whose methods are the event handlers; a `Valid()` invariant
ties its fields to pure specification functions (`RenderQuestion`, `Reveal`,
`IndexAfter`, `RenderList`, `IconFor`, `Dictionary`), and lemmas state the properties of
those functions.

The model covers this revision of `script.js` exactly: tracks live only in memory and
carry no progress, there are no seed tracks, "next" is always enabled with no reveal
delay, and there is no drag-and-drop, signup or tab switch.

## Model

| member | source | states |
|---|---|---|
| `Theme.IconFor` | script.js:42-48 | the sun icon is shown exactly in dark mode, the moon icon exactly in light mode |
| `Theme.StoredTheme` | script.js:64-68 | the persisted value is `"dark"` exactly when the body is dark after the click, `"light"` otherwise |
| `Theme.LoadedDarkMode` | script.js:51-54 | on load the body is dark iff it already was or the saved value is exactly `"dark"`; nothing removes the class |
| `Theme.PersistRoundTrip` | script.js:51-54 | the value a click persists brings back the same mode on the next load of a page whose markup starts light (`bodyDark` false); on a page whose markup is already dark, load never removes the class |
| `Theme.ThemeController.constructor` | script.js:50-56 | load applies the saved preference and sets the icon matching the mode |
| `Theme.ThemeController.Click` | script.js:59-69 | a click flips the mode, keeps the icon in step, and writes `theme` so it reads `"dark"` exactly when dark; other keys unchanged |
| `Theme.ClickTwice` | script.js:59-69 | two clicks restore the mode and the icon; the stored value then names the original mode |
| `Language.Lookup` | script.js:116-118 | a code has an entry iff it is one of the dictionary's codes, and then it is that entry; a missing attribute has none |
| `Language.SavedOrDefault` | script.js:153 | a missing or empty saved value selects `pt`; any other saved string is used as is |
| `Language.DictionaryCodes` | script.js:92-111 | the dictionary holds exactly `pt`, `en`, `es`, and the default is among them |
| `Language.SavedCodeRoundTrip` | script.js:124 | a code persisted by a translation is read back on load as the same code and the same entry |
| `Language.LanguageController.constructor` | script.js:113-154 | load applies the saved (or default) code: a known code sets the four slots, `currentLang` and the stored value; an unknown one keeps the markup texts and `pt` |
| `Language.LanguageController.ApplyTranslation` | script.js:116-126 | a known code sets all four slots to its entry, `currentLang` and stored `language`; an unknown code changes none of them |
| `Language.LanguageController.ToggleClick` | script.js:129-132 | the toggle button flips the panel's `show` class and nothing else |
| `Language.LanguageController.OutsideClick` | script.js:135-139 | a click outside the dropdown leaves the panel closed and the texts unchanged |
| `Language.LanguageController.OptionsClick` | script.js:142-150 | a click on a language link applies that link's code (as `ApplyTranslation`) and always closes the panel; a click on anything else changes nothing |
| `Quiz.QuizDataWellFormed` | script.js:171-192 | there are two questions, each with four options and a right index among them |
| `Quiz.RenderOptions` | script.js:203-206 | one unmarked button per option, in order, each with its position as `data-index` |
| `Quiz.RenderQuestion` | script.js:197-208 | the heading is the prompt and button `k` is the unmarked option `k` |
| `Quiz.AddMark` | script.js:220 | `classList.add` adds one class to one button and leaves every other button as it was |
| `Quiz.Reveal` | script.js:219-226 | labels and indices kept; `correta` is added exactly at the right option, `errada` exactly at a wrong choice |
| `Quiz.RevealOnFreshButtons` | script.js:219-226 | on fresh buttons, a right answer leaves exactly one `correta` button and no `errada`; a wrong one leaves exactly the chosen button `errada` and exactly the right one `correta` |
| `Quiz.RevealIdempotent` | script.js:219-226 | the feedback classes are added with `classList.add`, which is idempotent: adding them again for the same choice changes no button |
| `Quiz.NextIndex` | script.js:239 | the next index is always below the question count; from an index in range it is `i + 1`, or `0` after the last question |
| `Quiz.IndexAfterClicks` | script.js:238-241 | after `n` clicks on "next" from the first question the index is `n mod 2` |
| `Quiz.QuizController.constructor` | script.js:194-195 | load shows the first question, unanswered and unmarked |
| `Quiz.QuizController.LoadQuestion` | script.js:197-209 | clears the answered flag and renders the current question afresh |
| `Quiz.QuizController.Respond` | script.js:212-227 | the first answer records the choice and reveals the feedback; once answered, further answers change nothing (flag, marks, index) |
| `Quiz.QuizController.ContainerClick` | script.js:230-235 | a click on an option answers with its `data-index`; a click elsewhere changes nothing |
| `Quiz.QuizController.Next` | script.js:238-241 | the index becomes `(i + 1) mod 2`, equal to the number of "next" clicks mod 2; the flag is cleared and all marks are gone |
| `Tracks.TrimStart` | script.js:278 | drops exactly the leading whitespace: a suffix whose first character is not whitespace |
| `Tracks.TrimEnd` | script.js:278 | drops exactly the trailing whitespace: a prefix whose last character is not whitespace |
| `Tracks.Trim` | script.js:278 | the result is the slice of the input between leading and trailing whitespace, with no whitespace at either end |
| `Tracks.TrimEmptyIffBlank` | script.js:278 | the trimmed answer is empty iff the answer is all whitespace |
| `Tracks.TrimOfTrimmed` | script.js:279 | a string with no whitespace at either end is its own trim |
| `Tracks.TrimIdempotent` | script.js:279 | trimming twice is trimming once, so every stored name is already trimmed |
| `Tracks.AcceptedName` | script.js:277-279 | a cancelled, empty or all-whitespace answer is rejected; any other is accepted as its trim, which is non-empty and trimmed |
| `Tracks.RenderCards` | script.js:268-273 | one card per name, in list order, each with the name as heading and an "Abrir" button |
| `Tracks.RenderList` | script.js:262-274 | the placeholder iff the list is empty; otherwise one card per name in order, each with the name as heading and an "Abrir" button |
| `Tracks.RenderAppend` | script.js:279-280 | re-rendering after an append shows the old cards followed by one card for the new name |
| `Tracks.AppendTrackName` | script.js:279 | appending a non-empty trimmed name keeps every listed name non-empty and trimmed |
| `Tracks.TrackList.constructor` | script.js:260-285 | load starts with no tracks and shows the placeholder |
| `Tracks.TrackList.AddTrack` | script.js:276-282 | an accepted answer appends exactly its trim at the end, earlier names untouched, and re-renders; a rejected answer changes nothing |

## Left out

- `handleUploadPage` (script.js:291-311): it only copies a picked file's name into a text element through the native file picker.
- `handleLoginPage` (script.js:316-364): a placeholder that logs and alerts; its login logic is not implemented in the source.
- Markup: the HTML strings built for the question and the track cards are modelled as values (`QuestionView`, `ListView`), not as text. `script.js` inserts track names (and option texts) into `innerHTML` without escaping (script.js:268-273), so a name containing `<` or `&` is parsed as HTML in the page, while the model shows it as plain text.
- Event wiring: listener registration, propagation, `stopPropagation`, `preventDefault` and `dropdownContainer.contains` are browser behaviour; an outside click is the single event `OutsideClick`, a click in the quiz container or options panel is given as its target.
- `prompt`, `alert` and `console.log` are host I/O: the prompt's answer is a parameter of type `Option<string>` (`None` for a cancelled prompt).
- The page-specific guard clauses (`if (!element) return`): each controller is modelled as present on its page; the elements the source assumes without checking (subtitle, CTA button, options panel) are assumed present.
- Language.Lookup: a JavaScript object lookup also finds names inherited from `Object.prototype` (such as `"constructor"`), which only a hand-edited stored value could reach; the model treats the dictionary as exactly its three codes.
- Language.LanguageController.constructor: the options panel is taken to start without the `show` class, as the markup is not part of this model.
- Quiz.QuizController.ContainerClick: the clicked element is given by its position among the rendered buttons; `parseInt` of `data-index` is the position itself, since the buttons are rendered with their positions.
- Strings are sequences of Unicode scalar values rather than UTF-16 code units; every character `trim` removes lies in the Basic Multilingual Plane, so trimming is unaffected.
