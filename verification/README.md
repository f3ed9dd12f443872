# Password generator — Dafny model

A model of the logic inside the password generator's single React
component (`src/App.jsx`): how the character pool is assembled from the
two options, how the sampling loop turns random draws into a password, and
how the strength indicator scores a configuration, labels it, sizes its bar
and decides whether to show the short-length warning.

Each `Math.random()` call is represented by the integer index the source's
expression `Math.floor(Math.random() * str.length + 1)` turns it into, so the
generator is a pure fold over a caller-supplied sequence of draws. That
expression yields an index from 1 to the pool's length (proved over exact
reals by `Generator.DrawIndex`), and the model keeps that behaviour: the
pool's first character (`'A'`) is never chosen, and a draw equal to the pool's
length makes `charAt` return the empty string, so the password can come out
shorter than requested. The application presents `length` to the user as the
password's length ("Password Length: {length}", src/App.jsx:110); the code does
not deliver a password of that length drawn from the whole pool, and the model
follows the code (see "## Findings").

Modules, one per concern of the component:

- `JsString` — `String.prototype.charAt`, empty outside the string.
- `Pool` — the letters, digits and symbols alphabets and the pool built from them.
- `Generator` — draw indices, the sampling fold `Sample`, and the loop `PasswordGenerator`.
- `OffByOne` — the as-written index's shortfall and the intended index, proved exact.
- `Strength` — score, levels, the label switch, bar width and the warning condition.

## Model

| member | source | states |
|---|---|---|
| JsString.CharAt | src/App.jsx:25 | `charAt` yields one character exactly when the index lies inside the string, and that character is the one at the index; otherwise the empty string |
| Pool.BuildPool | src/App.jsx:20-22 | the pool is the 52 letters, followed by the 10 digits iff numbers are allowed, followed by the 18 symbols iff special characters are allowed; its length is 52 plus 10 and 18 for the options on; a character is in it iff it belongs to the letters or to an enabled alphabet |
| Pool.PoolSizes | src/App.jsx:20-22 | the pool has 52, 62, 70 or 80 characters, and with both options off it is exactly the letters |
| Pool.OnlyFirstIsA | src/App.jsx:20-22 | every pool starts with `'A'` and contains no other `'A'` |
| Generator.DrawCount | src/App.jsx:23 | the loop body runs `length` times for a positive length and never for a non-positive one |
| Generator.DrawIndex | src/App.jsx:24 | the draw expression applied to a random value in [0, 1) gives an index of at least 1 and at most the pool size: never 0, possibly one past the last character |
| Generator.DrawsOf | src/App.jsx:23-24 | a run of random values in [0, 1) becomes one valid draw each, every draw between 1 and the pool size |
| Generator.Sample | src/App.jsx:23-25 | the fold of `pass += str.charAt(d)` produces one character for each draw that hits the pool and none for a draw that misses, and every character it produces is in the pool |
| Generator.SampleLooksUpKept | src/App.jsx:24-25 | the password is the pool looked up at the draws that hit it, in draw order |
| Generator.DroppedAreEndHits | src/App.jsx:24-25 | for draws the expression can produce, the draws that add nothing are exactly those equal to the pool's length |
| Generator.NeverFirst | src/App.jsx:24-25 | for draws the expression can produce, a character found only at the pool's front never appears in the password |
| Generator.PasswordGenerator | src/App.jsx:18-28 | the loop consumes one draw per iteration for `max(length, 0)` iterations and equals the fold; a non-positive length gives the empty string; the password is at most `length` long, exactly `length` minus the number of draws equal to the pool's length; every character is from the pool and none is `'A'` |
| Generator.PasswordFromRandoms | src/App.jsx:18-28 | driven by `Math.random()` values in [0, 1) through the line-24 expression, the generator yields at most `length` characters, all from the pool and none `'A'` |
| OffByOne.AsWrittenShortfall | src/App.jsx:24-25 | with the letters-only pool, the random value 0.99 gives index 52, and one requested character yields the empty password; no random value gives index 0 |
| OffByOne.IntendedDrawIndex | src/App.jsx:24 | the intended `Math.floor(Math.random() * str.length)` gives an index from 0 to the pool size minus 1 |
| OffByOne.IntendedDrawReachesEveryIndex | src/App.jsx:24 | with the intended expression every pool index, 0 included, is produced by some random value in [0, 1) |
| OffByOne.InRangeSampleExact | src/App.jsx:23-25 | when every draw lies inside the pool, the fold produces exactly one character per draw, the pool character at that draw |
| OffByOne.IntendedPasswordGenerator | src/App.jsx:18-28 | with the intended index the generator yields exactly `max(length, 0)` characters, the j-th being the pool character the j-th random value selects |
| Strength.Score | src/App.jsx:43-47 | the score is between 0 and 4, and it is 0 exactly when the length is below 8 and both options are off |
| Strength.ScoreCountsConditions | src/App.jsx:43-47 | the score equals the number of conditions among length >= 8, length >= 12, numbers allowed, special characters allowed that hold |
| Strength.ScoreMonotone | src/App.jsx:44-47 | the score never decreases as the length grows, nor when either option is switched on |
| Strength.StrengthSwitch | src/App.jsx:49-56 | a score from 0 to 4 selects the label and colour of the level of that rank; any other score takes the `default` branch, Very Weak in red |
| Strength.GetPasswordStrength | src/App.jsx:42-57 | the switch's `default` branch is never taken: the rating returned is the label and colour of the level whose rank is the score (Very Weak, Weak, Medium, Strong, Very Strong for 0 to 4) |
| Strength.BarWidthByLevel | src/App.jsx:102 | the bar is 10, 25, 50, 75 or 100 percent wide for the five levels in order, so its width strictly increases with the level |
| Strength.BarWidth | src/App.jsx:102 | the width is always one of 10, 25, 50, 75 and 100 percent, and 10 for any text other than "Very Strong", "Strong", "Medium" and "Weak" (the per-label widths are stated by `BarWidthByLevel`) |
| Strength.BarWidthIncreasesWithScore | src/App.jsx:102 | of two configurations, the one with the higher score is rendered with the strictly wider bar |
| Strength.ShowsLengthWarning | src/App.jsx:138 | the warning is shown exactly when the length alone earns no point: with both options off the score would be 0 |
| Strength.WarningIffNoLengthPoint | src/App.jsx:138 | the short-length warning shows exactly when the length >= 8 point is missing, i.e. when the score is made of the two options alone; then the rating is at most Medium |
| Strength.StrengthExamples | src/App.jsx:42-57 | length 6 with no options is Very Weak; length 10 with numbers is Medium; length 14 with both options is Very Strong; lengths 12 and 100 without options are both Medium |

## Left out

- React state and hooks (`useState`, `useCallback`, `useEffect`, `useRef`): the model passes the configuration in and returns the password instead of calling `setPassword`.
- Copying to the clipboard and the two-second reset of the "copied" flag (src/App.jsx:30-36): browser I/O and a timer.
- Randomness: `Math.random()` is replaced by caller-supplied values; nothing is said about their distribution.
- Generator.DrawIndex: reads `Math.random() * str.length + 1` over exact reals rather than IEEE doubles, so floating-point rounding is not modelled.
- The slider's bounds of 6 to 100 (src/App.jsx:114-115): a user-interface constraint; the model accepts any integer length.
- The JSX layout, styling classes beyond the colour names in the rating, the analytics component and `src/components/ui/alert.jsx`: presentation with no logic.
- The application presents `length` as the password's length (src/App.jsx:110); the code makes the password shorter whenever a draw lands one past the pool, and gives the empty string for every non-positive length. The model follows the code.

## Findings

| source | as written | input that shows it | evidently intended | confidence | as-written member | corrected member |
|---|---|---|---|---|---|---|
| src/App.jsx:24 | `Math.floor(Math.random() * str.length + 1)` gives an index from 1 to `str.length`; index 0 (`'A'`) is never drawn and index `str.length` makes `charAt` return `""` | length 1, both options off, `Math.random()` returning 0.99: index 52 on a 52-character pool, password `""` | `Math.floor(Math.random() * str.length)`, an index from 0 to `str.length - 1`, giving exactly `length` characters, as the "Password Length" label (src/App.jsx:110) presents it, with every pool character reachable | high; not executed | OffByOne.AsWrittenShortfall | OffByOne.IntendedPasswordGenerator |
