# ArpitStack portfolio: terminal dispatcher and command palette

This project is a Dafny model of the two pieces of real logic in the ArpitStack portfolio site.

**The simulated terminal** (`src/components/ui/terminal.tsx`):
- `COMMANDS` is a fixed table from a command name to one line or a block of lines.
- The scrollback starts with two greeting lines.
- `handleCommand` reads the typed line and trims and lower-cases it. Then it either:
  - returns early on a blank line, or
  - queues React state updates: an echo line `"> " + input`; then either the registry output, the "Command not found" message, or a wipe of the scrollback on `clear`; then a reset of the input field.
- The model represents each queued update as a value (`Terminal.Update`). `Terminal.Flush` applies the updates in issue order, which gives the state React renders next.

**The command palette** (`src/components/command-palette.tsx`):
- Its only state is `open`, which starts false.
- A document keydown of `k` with Command or Control is default-prevented and flips `open`.
- The dialog's `onOpenChange` sets `open` directly.
- `runCommand` queues `setOpen(false)` and then runs the chosen item's browser action.
- The model records each handler as the ordered list of what it does (`Palette.Signal`): prevent default, queue a flip, queue a set, run an effect. Browser actions are effect labels (`Palette.Effect`).

Files:
- `text.dfy` (module `Text`) holds ECMAScript `trim` and the ASCII case mapping of `toLowerCase`.
- `terminal.dfy` (module `Terminal`) holds the registry, the state, the update queue, submission and its properties.
- `palette.dfy` (module `Palette`) holds the open/close machine, event traces and the item table.

Behaviour of the code worth noting:
- **Blank submit:** it leaves the input field as it was. The early return on line 59 skips `setInput("")`.
- **`clear`:** it leaves an empty scrollback, not the greeting, because `setHistory([])` is queued after the echo.
- **No runtime registration:** the table is a constant. There is no operation that registers a command.
- **Search text:** nothing in the palette resets the search text on reopen. The search belongs to the dialog library and is not modelled.

The registry is a parameter (`Terminal.Registry`) of every operation; `Terminal.Commands` is the component's own table. Line and block outputs are `Terminal.Output`. The lookup keeps JavaScript truthiness (`Terminal.Truthy`), so an empty one-line output would be reported as unknown.

## Model

| member | source | states |
|---|---|---|
| Text.LeadingSpace | src/components/ui/terminal.tsx:58 | the count of leading white-space characters: all of them are white space, and the next character, if any, is not |
| Text.TrailingSpace | src/components/ui/terminal.tsx:58 | the count of trailing white-space characters: all of them are white space, and the character before them, if any, is not |
| Text.Trim | src/components/ui/terminal.tsx:58 | `trim` returns a string with no white space at either end, never longer than the input, and empty exactly when the input is all white space |
| Text.TrimUnique | src/components/ui/terminal.tsx:58 | for any white space, then a trimmed middle, then white space, `trim` returns that middle |
| Text.TrimSplits | src/components/ui/terminal.tsx:58 | every string is white space, then its trim, then white space |
| Text.TrimFixesTrimmed | src/components/ui/terminal.tsx:58 | `trim` leaves a string unchanged exactly when it has no white space at either end |
| Text.TrimIgnoresPadding | src/components/ui/terminal.tsx:58 | adding white space on either side does not change the trim |
| Text.LowerChar | src/components/ui/terminal.tsx:58 | `A`..`Z` map to `a`..`z` (code point plus 32); every other character is kept |
| Text.ToLower | src/components/ui/terminal.tsx:58 | lower-casing keeps the length and maps each character by itself |
| Text.ToLowerIsLower | src/components/ui/terminal.tsx:58 | the result has no ASCII upper-case letter; lower-casing is the identity exactly on strings without one |
| Text.ToLowerKeepsTrimmed | src/components/ui/terminal.tsx:58 | a string has white space at an end exactly when its lower-cased form does |
| Text.TrimToLowerCommute | src/components/ui/terminal.tsx:58 | trimming and lower-casing commute |
| Text.Normalize | src/components/ui/terminal.tsx:58-59 | the lookup key has no ASCII upper-case letter and no white space at either end; it is empty, and the handler returns early, exactly when the input is all white space |
| Text.NormalizeFixesIff | src/components/ui/terminal.tsx:58 | the keys that normalize to themselves are exactly the trimmed lower-case strings |
| Text.NormalizeIdempotent | src/components/ui/terminal.tsx:58 | normalizing a key again changes nothing |
| Text.NormalizeIgnoresCase | src/components/ui/terminal.tsx:58 | inputs equal up to letter case give the same key |
| Text.NormalizeIgnoresPadding | src/components/ui/terminal.tsx:58 | inputs equal up to surrounding white space give the same key |
| Text.NormalizeSpelling | src/components/ui/terminal.tsx:58 | any spelling of a key that differs only in case and padding normalizes to that key |
| Terminal.Flush | src/components/ui/terminal.tsx:61-76 | applying queued updates in order keeps the old history as a prefix when none replaces it, and keeps the input when none sets it |
| Terminal.Handle | src/components/ui/terminal.tsx:56-77 | the handler queues nothing exactly for blank input; otherwise it queues the echo first and the input reset last |
| Terminal.SubmitOutcome | src/components/ui/terminal.tsx:59-76 | the queued updates amount to: no change on blank input; empty history and input after `clear`; otherwise empty input and the old history plus echo plus reply |
| Terminal.Submit | src/components/ui/terminal.tsx:56-77 | blank input changes nothing, including the input field; any other input empties the field; `clear` empties the history; a known command appends its echo and then its lines; an unknown one appends its echo and the not-found message for the normalized key |
| Terminal.Edit | src/components/ui/terminal.tsx:120 | typing replaces the input and leaves the history alone |
| Terminal.InitialState | src/components/ui/terminal.tsx:46-47 | the field starts empty, and the history is exactly the two greeting lines, neither drawn as a prompt line |
| Terminal.SubmitExtends | src/components/ui/terminal.tsx:61-73 | a non-blank submission other than `clear` keeps the old history as a prefix and appends exactly 1 + the reply length lines: the echo, then the reply in order |
| Terminal.SubmitIgnoresCaseAndPadding | src/components/ui/terminal.tsx:58-73 | two inputs with the same key produce histories of equal length that agree everywhere except the echo line |
| Terminal.HelpAnyCase | src/components/ui/terminal.tsx:58-68 | `help` in any case and with any padding, such as `" HELP "`, appends the echo of the text as typed and then the whole help block |
| Terminal.UnknownShowsNormalized | src/components/ui/terminal.tsx:72-73 | `" Foo"` appends the echo `"> " + " Foo"` and then `Command not found: foo. Type "help" for options.` |
| Terminal.RunsAsTyped | src/components/ui/terminal.tsx:58-71 | typing a registry key exactly as declared runs it: the echo and then that command's lines |
| Terminal.RegistryNames | src/components/ui/terminal.tsx:9-43 | the table holds exactly the seven declared names |
| Terminal.RegistryKeysNormal | src/components/ui/terminal.tsx:9-43 | every key is non-empty, trimmed and lower-case, and none is `clear` |
| Terminal.RegistryOutputsTruthy | src/components/ui/terminal.tsx:9-43 | every value passes the truthiness test on line 65 |
| Terminal.CommandsReachable | src/components/ui/terminal.tsx:9-71 | every registry key is reachable by the lower-cased lookup and is not shadowed by `clear` |
| Terminal.AdvertisedName | src/components/ui/terminal.tsx:10-19 | each help row after the title advertises its entry's name as its first word |
| Terminal.HelpListsOnlyCommands | src/components/ui/terminal.tsx:10-19 | every name the help block advertises is a registry key or the special-cased `clear` |
| Terminal.HelpListsEveryCommand | src/components/ui/terminal.tsx:9-43 | every registry key except `help` itself is advertised by some help row |
| Terminal.EchoCountConcat | src/components/ui/terminal.tsx:107-108 | the number of lines drawn in prompt style is additive over concatenation |
| Terminal.HelpTextNoEcho | src/components/ui/terminal.tsx:10-19 | no help line starts with `>`, so none is drawn as a prompt line |
| Terminal.OneEchoPerSubmit | src/components/ui/terminal.tsx:61-73 | for any registry in which no output line starts with `>`, each non-blank submission other than `clear` adds exactly one line drawn in prompt style |
| Terminal.CommandsNoEcho | src/components/ui/terminal.tsx:9-43 | no output line of the component's table starts with `>`: help and project rows start with a space, the neofetch rule with `-`, every other line with a letter |
| Terminal.CommandsOneEchoPerSubmit | src/components/ui/terminal.tsx:61-73 | with the component's own table, each non-blank submission other than `clear` adds exactly one line drawn in prompt style: its echo |
| Terminal.SubmitKeepsConsistent | src/components/ui/terminal.tsx:56-77 | after a submission, every history line is still a greeting, an echo, a registry output line or a not-found message |
| Terminal.StepKeepsConsistent | src/components/ui/terminal.tsx:56-120 | typing or submitting keeps every history line accounted for |
| Terminal.Session | src/components/ui/terminal.tsx:56-120 | any run of typing and submitting keeps every history line accounted for |
| Terminal.SessionFromInit | src/components/ui/terminal.tsx:47 | from the greeting, no run of actions produces a line without one of those origins |
| Palette.Handle | src/components/command-palette.tsx:31-49 | each handler's ordered signals: the shortcut gives prevent-default then flip, any other key nothing, `onOpenChange` exactly the requested value, and a choice the close request then the effect; default is prevented only for the shortcut, and an effect only ever comes last, right after the close |
| Palette.Step | src/components/command-palette.tsx:31-49 | the shortcut flips `open` and is default-prevented, and any other key changes nothing; `onOpenChange` sets exactly the requested value; choosing an item leaves the palette closed and runs that item's effect once |
| Palette.Run | src/components/command-palette.tsx:28-49 | over a run of events, `open` is the trace's queued updates applied in order, and the effects run are the chosen items' effects in order |
| Palette.StartsClosed | src/components/command-palette.tsx:28 | the palette starts closed, so the first shortcut press opens it |
| Palette.ShortcutTwiceRestores | src/components/command-palette.tsx:32-34 | the shortcut always changes `open`, and pressing it twice restores it |
| Palette.ShortcutExamples | src/components/command-palette.tsx:32 | `k` with Command or Control flips; `K`, `k` alone and `j` with modifiers do nothing |
| Palette.StepClosesFirst | src/components/command-palette.tsx:42-45 | in one handler, an effect runs only directly after the close request |
| Palette.CloseBeforeEffect | src/components/command-palette.tsx:42-45 | in any run of events, every effect directly follows a close request, and `open` as queued at that point is false |
| Palette.ChooseClosesThenActs | src/components/command-palette.tsx:42-45 | from either state, choosing an item gives exactly close-then-act and leaves the palette closed |
| Palette.GroupCounts | src/components/command-palette.tsx:59-109 | the groups hold 3, 3 and 4 entries |
| Palette.ItemsOrdered | src/components/command-palette.tsx:59-109 | entries appear group by group: Navigation, then Tools, then Connect |
| Palette.ItemTable | src/components/command-palette.tsx:59-109 | there are ten entries in three consecutive groups of 3, 3 and 4, under three different headings (`Palette.Heading` gives the literal headings of lines 59, 77 and 92) |
| Palette.TitlesDistinct | src/components/command-palette.tsx:59-109 | no two entries share a title |
| Palette.ItemEffects | src/components/command-palette.tsx:60-101 | "About ArpitStack" sets the hash `#about`; "Interactive Terminal" scrolls to `work`; "GitHub Profile" opens its URL in `_blank`; every Connect entry that opens a window uses `_blank` |

## Left out

- Prototype-key lookups: `COMMANDS[cmd]` on a plain object also finds inherited members such as `constructor`. The model's registry is a finite map with exactly the seven declared keys, so such inputs are reported as unknown here.
- Text.LowerChar: only ASCII letters are lower-cased. `toLowerCase` also maps other letters, for example the Kelvin sign U+212A to `k`. So "secretstac" followed by the Kelvin sign lower-cases to "secretstack" in the browser and runs that command, but is unknown in the model.
- Text.ToLower: it keeps the length and maps each character by itself. That holds only for the ASCII mapping: the real `toLowerCase` can lengthen a string (U+0130 becomes `i` followed by U+0307), and it maps a word-final `Σ` to `ς` by context.
- The form's default submit action is suppressed (line 57) on every submit, blank ones included. It keeps the page from reloading, so the state survives. It is not a modelled step; the model assumes the state survives every submit.
- The scroll-to-bottom effect (lines 50-54), the close button and all styling are display-only.
- Search, filtering and ranking in the palette belong to the dialog library, whose code is not part of this model. The keyboard hints are kept as display-only data.
- The palette's listener registration and removal (lines 38-39) are not modelled. The listener is treated as always installed while the component is mounted.
- Browser effects (`location.hash`, `window.open`, `window.scrollTo`) are labels. In particular, what `scrollTo` does when the `work` element is missing is not modelled.
- React's rendering and batching are modelled only through their result: queued updates applied in order.
