# Battery charge-limit indicator — Dafny model

This project models the panel indicator of a desktop-shell extension that
toggles a laptop's battery charge limit between 100% and 60% by running
`sudo framework_tool --charge-limit …` and reading its output. The model
covers the `Indicator` class of `extension.js`:

- the icon state (`battery-full-symbolic` / `battery-good-symbolic`) as the
  datatype `Extension.Icon`, held in the field `icon` of the class
  `Extension.Indicator`;
- `_toggleIcon` as the method `ToggleIcon` of that class, which flips the
  icon field;
- `_toggleChargeLimit`, `_runCommand` and `_runInitialCommand` as methods of
  that class, each receiving the finished command's outcome
  (`Extension.Outcome`) as a parameter and returning the argument vector it
  spawns (and, for a set command, the notification it shows);
- the two fixed command lines (`QueryArgv`, `SetLimitArgv`);
- the output parser `stdout.match(/Maximum (\d+)%/)` + `parseInt(…, 10)`
  as a leftmost recursive scan (`OutputParser.ParseMaximum`) specified
  against a declarative description of a match (`IsMatch`,
  `IsLeftmostMatch`);
- decimal text in both directions (`Decimal.DecimalValue` for `parseInt`,
  `Decimal.NatToDecimal` for the `toString` of the limits 60 and 100) with
  round-trip lemmas.

A ghost field `applied` of the indicator records the last charge limit known
to be in force (reported by the query or set by a successful toggle); the
invariant `Valid()` says the icon is full exactly when that limit is 100.
The pure functions `AfterToggles` and `LastApplied` replay a series of
toggles completed one after another, and the lemmas about them state that
consistency is kept, that one success establishes it, and that the icon
flips once per successful toggle.

Behaviour worth noting:

- a set command counts as successful when it finished (`ok`) and exited
  successfully; a non-empty error stream does not block success, and no
  separate "limit rejected" outcome exists;
- when the initial query fails or its output lacks the pattern, the icon
  simply keeps its construction-time value (full); there is no other default;
- the query completion looks only at `ok`, not at the exit status;
- there is no guard against overlapping toggles and no timeout.

## Model

| member | source | states |
|---|---|---|
| `Extension.Icon.Toggled` | extension.js:48-53 | the full icon becomes good and any other becomes full: the result always differs from the input, also by name |
| `Extension.Icon.LimitToRequest` | extension.js:58-64 | the toggle requests 60 or 100, and the icon that limit is displayed as is the toggled icon (60 from full, 100 otherwise) |
| `Extension.IconForMaximum` | extension.js:106-110 | a reported maximum shows the full icon exactly when it equals 100 |
| `Extension.ToggleTwice` | extension.js:48-53 | toggling the icon twice restores it |
| `Extension.NamesDistinct` | extension.js:49-52 | comparing icon names, as the source does, decides which icon is shown |
| `Extension.QueryArgv` | extension.js:95 | the query command is `sudo framework_tool --charge-limit --driver portio`; no element is a limit value |
| `Extension.SetLimitArgv` | extension.js:69 | the set command is the query command with the limit's decimal text inserted after `--charge-limit`, and that text reads back as the limit |
| `Extension.PresetArguments` | extension.js:58-69 | the two limits the toggle requests are written "60" and "100" |
| `Extension.LimitNotification` | extension.js:78 | the confirmation has the title "Charging Limit Set" and a body of the fixed prefix, the limit's decimal text and '%', whose digits read back as the limit |
| `Extension.QueryReport` | extension.js:100-104 | a query that did not finish (`!ok` or an exception) reports nothing; a finished one reports what the parser reads from its output, which is nothing exactly when the pattern occurs nowhere |
| `Extension.QueryShowsLeftmostReport` | extension.js:101-110 | a finished query shows the icon for the decimal value of the leftmost "Maximum N%" anywhere in its output, whatever the exit status and error stream |
| `Extension.QueryWithoutReportKeepsIcon` | extension.js:101-113 | a finished query whose output contains no "Maximum N%" leaves the icon unchanged |
| `Extension.AfterSet` | extension.js:77-82 | a set completion changes the icon exactly when the command finished and exited successfully |
| `Extension.AfterQuery` | extension.js:101-116 | a query completion with no report keeps the icon; with a report it shows full exactly when the value is 100 |
| `Extension.QueryShowsReportedLimit` | extension.js:101-110 | a finished query whose output starts with "Maximum N%" shows the icon for N regardless of exit status and error stream |
| `Extension.QueryStandardScenario` | extension.js:102-107 | output "Maximum 100%…" shows the full icon |
| `Extension.QueryZeroPaddedScenario` | extension.js:102-107 | output "Maximum 0100%…" is read as 100 and shows the full icon |
| `Extension.QueryLimitedScenario` | extension.js:102-110 | output "Maximum 60%…" shows the good icon |
| `Extension.TogglesKeepConsistency` | extension.js:58-82 | with toggles completed in order, an icon consistent with the last applied limit stays consistent (full exactly when that limit is 100) |
| `Extension.SuccessfulToggleEstablishesConsistency` | extension.js:58-82 | after at least one successful toggle a limit is known and the icon is consistent with it, whatever the starting icon |
| `Extension.LastAppliedKeepsSome` | extension.js:77-79 | once a limit is known, later toggles keep a known limit |
| `Extension.TogglesFlipPerSuccess` | extension.js:77-82 | after a series of toggles the icon has flipped once per successful completion and never otherwise |
| `Extension.Indicator.constructor` | extension.js:34-35 | the icon starts as `battery-full-symbolic`, with no limit known |
| `Extension.Indicator.ToggleIcon` | extension.js:48-53 | the icon field becomes the toggled icon |
| `Extension.Indicator.RunCommand` | extension.js:66-90 | spawns the set command for the limit; on `ok && successful` flips the icon, records the limit and returns the notification naming it; otherwise, including a thrown exception, changes nothing and returns no notification |
| `Extension.Indicator.ToggleChargeLimit` | extension.js:58-64 | requests 60 from the full icon and 100 otherwise, with `RunCommand`'s completion; keeps `Valid()` and establishes it on success |
| `Extension.Indicator.RunInitialCommand` | extension.js:92-124 | spawns the query command; on a finished query whose output matches sets the icon for the value and records it; otherwise leaves the icon; keeps or establishes `Valid()` |
| `OutputParser.MatchLengthUnique` | extension.js:102 | at a given position at most one digit-group length makes the pattern match (the group is the whole digit run) |
| `OutputParser.DigitRunLength` | extension.js:102 | the greedy `\d` run: all digits, and ended by the end of the text or a non-digit |
| `OutputParser.MatchAt` | extension.js:102 | returns a group length exactly when the pattern matches at the position, and that length makes it match |
| `OutputParser.Scan` | extension.js:102 | returns the first position at or after the start where the pattern matches, or nothing when it matches at none |
| `OutputParser.ParseMaximum` | extension.js:102-104 | nothing exactly when the pattern matches nowhere; otherwise the decimal value of the group of the leftmost match |
| `OutputParser.MatchAtStart` | extension.js:102-104 | a match at position 0 is the one the parser reads |
| `OutputParser.ReportMatches` | extension.js:102 | "Maximum " + digits + "%" + anything matches at 0 with those digits as the group |
| `OutputParser.ParseToolReport` | extension.js:102-104 | output starting "Maximum N%" (N written in decimal) parses to N whatever follows |
| `OutputParser.ParseZeroPadded` | extension.js:104 | leading zeros in the group do not change the parsed value |
| `OutputParser.ParseLeftmostWins` | extension.js:102 | of two reports the first one is read |
| `Decimal.DecimalValue` | extension.js:104 | `parseInt(digits, 10)`: the value of k digits is below 10^k |
| `Decimal.NatToDecimal` | extension.js:69 | the plain decimal text of a non-negative integer (the `toString` text of 60 and 100): digits only, no leading zero, one digit exactly below 10 |
| `Decimal.DecimalOfNatToDecimal` | extension.js:69 | reading back a written number gives the number |
| `Decimal.NatToDecimalOfDecimal` | extension.js:104 | writing back a read canonical digit string gives the same text |
| `Decimal.LeadingZeroIgnored` | extension.js:104 | one leading '0' does not change the value read |
| `Decimal.LeadingZerosIgnored` | extension.js:104 | any number of leading zeros do not change the value read |
| `Decimal.CanonicalLowerBound` | extension.js:104 | a digit string without a leading zero of length k is at least 10^(k-1) |

## Left out

- Process execution: `Gio.Subprocess.new`, `communicate_utf8_async` and `communicate_utf8_finish` and the privileged tool itself are not modelled; each command's outcome is a parameter (`Outcome`), and an exception while spawning or finishing is the `Raised` outcome, which changes nothing.
- Asynchronous completion: each method runs its completion handler immediately on the given outcome, so overlapping toggles (two clicks that both read the same icon before either completes) are not modelled; the lemmas about series of toggles assume each completes before the next starts.
- The GNOME Shell widgets and registration (`GObject.registerClass`, `PanelMenu.Button`, `St.Icon`, the `button-press-event` connection) and the `enable`/`disable` lifecycle of the extension class: host UI, only the icon name matters.
- `log`, `logError` and `gettext` are not modelled; `Main.notify` is modelled as the returned `Notification` value, with the untranslated strings.
- `Decimal.NatToDecimal`: always writes plain digits; JavaScript's `toString` switches to exponent notation ("1e+21") from 10^21 up, which the source never meets since it converts only 60 and 100.
- `Decimal.DecimalValue`: JavaScript numbers lose precision for very long digit runs; the model reads an unbounded natural number.
- `_init` starts the initial query; in the model the constructor only sets the initial icon and `RunInitialCommand` is called separately, since its completion arrives later.
