# Portfolio page scripts: the toy console, active-nav highlighting and the typing effect

This project models the parts of the portfolio page's `script.js` whose behaviour can be
stated exactly. It has three modules:

- `Console` (console.dfy) models the "terminal easter egg". It has an output element whose
  children are output lines, other markup and a prompt row. It also has the `active` class of
  the console and the `hidden` class of its toggle button. `processCommand` takes a trimmed,
  lower-cased command and uses a fixed six-entry table to decide what to do. It echoes the
  command as `$> cmd`. Then it either closes the console (`exit`), wipes every output line
  (`clear`), prints the table's reply as a success line, or prints
  `Command not found: <cmd>. Type "help" for available commands.` as an error line. New lines
  are inserted just before the prompt, so the prompt stays last. `toggleTerminal` and
  `closeTerminal` keep the button hidden exactly while the console is open.
- `Navigation` (navigation.dfy) models `ActiveNav.updateActiveLink`. Each section whose
  half-open extent `[offsetTop, offsetTop + offsetHeight)` contains `scrollY + 100` sets the
  `active` class on exactly the links whose href is `#<id>`, and clears it on all other links.
  The last such section therefore decides. When no section matches, nothing changes.
- `Typing` (typing.dfy) models `TerminalTyping.typeText`. Each interval tick appends the next
  UTF-16 code unit of `data-text`. After the last unit the interval is cleared, and the
  restart empties the element and begins again at index 0.

Each stateful piece is a class whose methods update its fields as the script does: the
output list, the two flags, the input field value, the array of link flags, and the typing
content and index. Each such method is specified against a function over a value: `Process`,
`Toggled`, `Closed`, `AfterScroll` and `Ticked`. The lemmas state what the page promises about
those functions.

Two modelling notes:

- `scrollY` is a floating-point number in the browser, while `offsetTop` and `offsetHeight`
  are integers. For an integer bound `n` and a real `p`, `p >= n` holds iff `floor(p) >= n`,
  and `p < n` holds iff `floor(p) < n`. So the model takes `floor(scrollY)` as an `int`, and
  this loses nothing.
- The command table's replies are truthy exactly when they are non-empty strings. All six
  are non-empty, and the model tests `response != ""` as the script's `else if (response)`
  does.

## Model

| member | source | states |
|---|---|---|
| Console.LeadingSpaces | script.js:297 | the whitespace run that trim removes at the front: every unit before it is JS whitespace, and the next one is not |
| Console.TrailingSpaces | script.js:297 | the whitespace run that trim removes at the back, maximal in the same sense |
| Console.Trim | script.js:297 | `trim()`: the result is a slice of the input with only whitespace on either side, and it neither starts nor ends with whitespace |
| Console.Lower | script.js:297 | `toLowerCase()` on ASCII letters and the Kelvin sign: same length, no upper-case ASCII letter or Kelvin sign left, each ASCII letter shifted by 32, the Kelvin sign mapped to `k`, other characters unchanged, whitespace kept as whitespace |
| Console.Normalize | script.js:297 | `trim().toLowerCase()`: no longer than the input, no whitespace at either end, no upper-case ASCII letter; pinned down by `TrimPadded` and `BlankInputIgnored` |
| Console.KelvinLower | script.js:297 | `HAC` followed by the Kelvin sign lower-cases to `hack` |
| Console.KelvinHack | script.js:297 | that input normalises to the command `hack` |
| Console.KelvinHackReply | script.js:297-326 | so it prints the `hack` reply as a success line |
| Console.TrimPadded | script.js:297 | a word padded with whitespace trims to exactly the word and normalises to its lower-case form |
| Console.BlankInputIgnored | script.js:297-311 | whitespace-only input normalises to the empty command, which leaves output and flags unchanged |
| Console.Dispatch | script.js:310-330 | the choice made by processCommand: nothing iff the command is empty, close iff `exit`, wipe iff `clear`, the table text as a success iff one of hello/hack/skills/contact/help, the exact not-found text as an error iff the command is not in the table |
| Console.InsertBeforePrompt | script.js:338-340 | insertBefore adds exactly one child (the multiset of children grows by the new line) |
| Console.InsertAbovePrompt | script.js:332-340 | with the prompt last and unique, addOutput puts the line directly above the prompt and keeps every earlier child in order |
| Console.RemoveLines | script.js:346-349 | clearOutput leaves exactly the children that are not output lines |
| Console.RemoveLinesAppend | script.js:346-349 | clearing works child by child: clearing a concatenation is the concatenation of the clearings |
| Console.RemoveLinesKeeps | script.js:346-349 | children that are not output lines survive clearing unchanged and in order |
| Console.RemoveLinesDropsAll | script.js:346-349 | a list made only of output lines clears to nothing |
| Console.RemoveLinesKeepsPrompt | script.js:346-349 | clearing keeps the prompt as the one and last child |
| Console.Closed | script.js:370-376 | closeTerminal: the console is closed, the button shown (`hidden == active == false`), the output untouched |
| Console.Toggled | script.js:355-368 | toggleTerminal flips `active`, leaves `hidden == active` and does not touch the output |
| Console.ClosedIdempotent | script.js:370-376 | closeTerminal leaves the console closed with the button shown, and closing twice equals closing once |
| Console.ToggledTwice | script.js:355-376 | when `hidden == active`, toggling twice restores the state |
| Console.Echoed | script.js:314 | the echo `$> cmd` lands as a command line directly above the prompt, and the flags stay |
| Console.Process | script.js:310-330 | processCommand: only `exit` changes the flags, and it closes the console; the exact new screen for each kind of command is given by `ProcessEmpty`, `ProcessExit`, `ProcessClear`, `ProcessKnown` and `ProcessUnknown` |
| Console.ProcessEmpty | script.js:311 | the empty command changes nothing |
| Console.ProcessExit | script.js:314-319 | `exit` adds only the echo line above the prompt, then closes the console and shows the button |
| Console.ProcessClear | script.js:321-324 | `clear` removes the echo and every earlier output line, keeps other children and the prompt last, and leaves the flags unchanged |
| Console.ProcessClearOnlyLines | script.js:346-349 | when only output lines stand above the prompt, `clear` leaves just the prompt |
| Console.ProcessKnown | script.js:321-326 | a table command other than `clear` adds exactly the echo and then its table text as a success line, above the prompt, with the flags unchanged |
| Console.ProcessUnknown | script.js:327-329 | any other non-empty command that is not `exit` adds exactly the echo and then the not-found error line |
| Console.ProcessKeepsPrompt | script.js:310-340 | every command keeps the prompt as the one and last child |
| Console.TerminalEasterEgg.constructor | script.js:274-290 | the console starts from the page markup: its well-formed children (one prompt, last), the classes on the console and the button, and the field's value, all as given |
| Console.TerminalEasterEgg.AddOutput | script.js:332-344 | the output becomes the old output with the line inserted before the prompt |
| Console.TerminalEasterEgg.ClearOutput | script.js:346-349 | removing lines one at a time in document order yields `RemoveLines` of the old output |
| Console.TerminalEasterEgg.CloseTerminal | script.js:370-376 | the flags become `Closed` of the old state |
| Console.TerminalEasterEgg.ToggleTerminal | script.js:355-368 | the flags become `Toggled` of the old state |
| Console.TerminalEasterEgg.ProcessCommand | script.js:310-330 | the new state is `Process` of the old state and the command, and the prompt stays last |
| Console.TerminalEasterEgg.OnKeyPress | script.js:295-300 | on Enter, the normalised field value is processed and the field is emptied; any other key changes nothing |
| Navigation.LastMatch | script.js:455-460 | finds the last section whose extent contains the position, or reports that none contains it |
| Navigation.Highlight | script.js:461-466 | one link rewrite: a link is active exactly when its href is `#` + the section id, so a link without an href is never active, all active links share one href, and with distinct hrefs at most one link is active |
| Navigation.AfterScroll | script.js:452-468 | the flags after updateActiveLink: if they changed at all, every active link points at one section and that section lies at `scrollY + 100`; pinned down by `AfterScrollNoMatch` and `AfterScrollMatch` |
| Navigation.AfterScrollNoMatch | script.js:452-468 | when no section contains `scrollY + 100`, the link flags are unchanged |
| Navigation.AfterScrollMatch | script.js:452-468 | when section k is the last one containing `scrollY + 100`, exactly the links with href `#` + its id are active |
| Navigation.StackedOrder | script.js:455-460 | in sections stacked down the page, every section starts at or below the end of each earlier one |
| Navigation.StackedUnique | script.js:455-460 | in stacked sections at most one section contains a position, so the last match is the only one |
| Navigation.StackedLastIsOnly | script.js:455-460 | in stacked sections the section at the position is exactly the one updateActiveLink picks |
| Navigation.ActiveNav.constructor | script.js:440-444 | the link flags start as the markup gives them |
| Navigation.ActiveNav.UpdateActiveLink | script.js:452-469 | walking the sections, with the layout read at this scroll event, and rewriting the links turns the flags into `AfterScroll` of the old flags |
| Typing.Started | script.js:185-190 | the state when the interval starts is empty, running, and consistent with every text |
| Typing.Run | script.js:185-197 | any number of ticks keeps `content == text[..index]`, never moves the index back, and does nothing once the interval is cleared |
| Typing.Ticked | script.js:186-191 | a tick keeps `content == text[..index]`; before the end it appends `text[index]` and advances the index by one, and at the end it stops the interval with the content kept |
| Typing.RunTyping | script.js:186-190 | from the state `text[..i]` at index i, n ticks (i + n <= length) show `text[..i + n]` |
| Typing.RunPrefix | script.js:185-190 | n ticks after the start the element shows the first n code units |
| Typing.RunFinishes | script.js:186-191 | after more ticks than the text has units, the whole text is shown and the interval has stopped |
| Typing.RunSplit | script.js:186-197 | m + n ticks are m ticks followed by n ticks |
| Typing.TypingEffect.constructor | script.js:173-180 | a non-empty text starts empty at index 0 with the interval live |
| Typing.TypingEffect.Tick | script.js:186-191 | the state becomes `Ticked` of the old state, and the prefix invariant holds |
| Typing.TypingEffect.Restart | script.js:192-195 | after the interval stops, the element is emptied and typing restarts at index 0 |

## Left out

- The neural-network canvas background (script.js:4-110). It is floating-point physics with
  `Math.sqrt`, `Math.random`, canvas drawing and an endless animation-frame loop.
- The code-rain overlay (script.js:115-162). It is random CSS and DOM generation.
- The skills reveal and scroll animations (script.js:205-268). They only add classes from
  IntersectionObserver callbacks.
- Project card hover animations and smooth scrolling (script.js:381-434). They are CSS
  strings and `window.scrollTo`.
- Timers. The 50 ms interval, the 3000 ms and start delays, the 300 ms focus delay, focus
  handling and `transitionend` are not modelled. Each tick, restart and key press is one
  method call. The per-element start delay `index * 100` is not modelled either.
- The auto-scroll of the output element (script.js:343). It is layout state.
- The stand-alone resize handler (script.js:508-514), the start-up wiring (script.js:475-501)
  and the console logging.
- The command table lookup goes through a plain object, so inherited members such as
  `constructor` or `__proto__` would also be found as truthy replies. The model treats the
  table as exactly its six keys.
- Console.Lower: only ASCII letters and the Kelvin sign (U+212A, which lower-cases to `k`)
  are lower-cased. JavaScript's `toLowerCase` also maps other non-ASCII letters (Latin-1,
  Greek, Cyrillic, …). None of those maps to a single ASCII character, so such commands
  cannot match the table keys either way. Only their echo and error text would differ.
- Console strings are sequences of Unicode scalar values, while JavaScript strings are UTF-16
  code units. This makes no difference to trimming (all JS whitespace is in the BMP), to ASCII
  lower-casing, or to equality with the table keys. Lone surrogates in typed input cannot be
  represented.
- The page markup is not modelled. The console's starting children, its `active` class, the
  button's `hidden` class and the field's value are taken as given when the console object is
  built. `ToggledTwice` needs `hidden == active`. The markup is expected to start that way,
  and every toggle or close re-establishes it.
- The model assumes the output element holds exactly one `.terminal-prompt`, as its last
  direct child. The console's constructor requires this. The script would also run with no
  prompt, where `insertBefore(line, null)` appends (as `InsertBeforePrompt` does), or with
  children after the prompt. The model also assumes output lines occur only as direct
  children. `clearOutput` selects `.terminal-output-line`
  descendants at any depth, so a line nested inside other markup would be removed by the script
  but is kept by `RemoveLines`. The console, input and toggle elements are assumed to exist.
  `init` returns early without an input field, and that path is not modelled.
- `ActiveNav.links` fixes each link's href when the object is built. The script re-reads
  `getAttribute('href')` on every scroll (script.js:463). Nothing in the script changes an
  href, so this loses nothing the script does.
- A `.typing-effect` element without a `data-text` never gets a typing state (script.js:176),
  so the typing constructor requires a non-empty text.
