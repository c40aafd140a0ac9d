# esp8266littlefs: a Dafny model of the LittleFS packing extension

The extension packs a folder into a LittleFS image for an ESP8266 board. It
finds the packer program and reads the board's file-system layout from the
board definitions. It runs `mklittlefs` with the arguments built from that
layout and reports everything it does on a VS Code output channel.

This project models the part of `esp8266littlefs.js` that does the work. It
proves what that code does, including what it does on odd inputs.

- **Logging** (`logging.dfy`): the leveled logger.
  - `log` appends exactly one line unless the level is silent.
  - The line is the message with its ANSI colour sequences removed by
    `/\x1b\[[\d|\;]{1,4}m/g`.
  - `logVerbose` writes only at the verbose and debug levels.
  - The tagging helpers differ only in console colour and in the
    `  [LITTLEFS] ` prefix.
  - The output channel is a `Logger` object whose `channel` field grows in place.
- **JavaScript text and numbers** (`jstext.dfy`, `jsnumber.dfy`):
  - `\s`, `trimRight`, `split` and `join`, and the non-global `replace(/\r\n/, "\n")`.
  - `parseInt` with radix 10 or 16, and the extension's `stringToInt`.
  - A number's decimal text, and ECMAScript ToInt32, the conversion `>>` applies.
  - NaN is `None`.
- **Running the packer** (`runner.dfy`): `runCommand`. The spawn result is an
  input. The model states which lines the channel receives, in which order, and
  when the call throws.
- **Board options** (`boardconfig.dfy`): `getLittlefsOptions`.
  - Each line is matched with the three regular expressions, in the order they
    are tried, as JavaScript matches them: unanchored, leftmost, and with the
    greedy `(\S+)=(\S+)` split.
  - Matches are collected into a dictionary in which the last write wins.
  - Missing `spiffs_start` or `spiffs_end` throws a message naming the missing key.
  - The size entries are derived last.
- **Packing** (`packer.dfy`): `makeOsPath`, `makeMklittlefsArgs` and `packLittlefs`.
  - `makeMklittlefsArgs` works in place on a `StringList` object.
  - `packLittlefs` writes its settings report, runs the packer and writes the
    closing line.

Two behaviours of the code are worth stating directly:

- The argument list is `--debug`, the built list, then `--all-files`. No value
  follows `--debug`.
- A negative image size, where the end address is below the start address, is
  not rejected. It is written with a minus sign (`NegativeSizeAccepted`).

## Model

| member | source | states |
|---|---|---|
| Logging.Logger.constructor | esp8266littlefs.js:13-14 | the output channel starts empty, as `activate` creates it at line 231, and the level stays fixed for the logger's life; the level is a parameter, where the code always runs at `"normal"` (line 14, and the line 232 that would read it from the settings is commented out) |
| Logging.Logger.Log | esp8266littlefs.js:16-27 | at the silent level the channel is unchanged; otherwise exactly one line is appended: the message with its colour sequences removed |
| Logging.Logger.LogImportant | esp8266littlefs.js:29 | writes to the channel exactly what `log` writes; the colour only reaches the console |
| Logging.Logger.LogCommand | esp8266littlefs.js:30 | writes to the channel exactly what `log` writes |
| Logging.Logger.LogLittlefs | esp8266littlefs.js:31 | writes what `log` writes for the message behind the `  [LITTLEFS] ` tag |
| Logging.Logger.LogError | esp8266littlefs.js:32 | writes to the channel exactly what `log` writes |
| Logging.Logger.LogVerbose | esp8266littlefs.js:35-38 | writes only at the verbose and debug levels, and then what `log` writes |
| Logging.StripAnsi | esp8266littlefs.js:25 | the global replace of colour sequences, left to right and resuming after each match; it never lengthens the message (what it removes and keeps: the three lemmas below) |
| Logging.StripAnsiRemovesColour | esp8266littlefs.js:25 | an escape, `[`, one to four characters from digits, bars and semicolons, then `m`, vanishes from the line whatever follows it |
| Logging.StripAnsiKeepsLongSequence | esp8266littlefs.js:25 | the same sequence with five or more code characters is kept whole |
| Logging.StripAnsiPlainPrefix | esp8266littlefs.js:25 | text without an escape character reaches the channel unchanged, whatever follows it |
| Logging.AppendedInOrder | esp8266littlefs.js:16-27 | a series of `log` calls adds nothing when silent, and otherwise one stripped line per call, in call order |
| Logging.AppendedAllConcat | esp8266littlefs.js:16-27 | logging two batches one after the other adds what logging their concatenation adds |
| JsText.Join | esp8266littlefs.js:69 | `join(sep)`: the pieces with the separator between each two; `Split` is proved to be its inverse |
| JsText.TrimEnd | esp8266littlefs.js:80 | `trimRight` keeps a prefix, drops only white space, and leaves no white space at the end |
| JsText.Split | esp8266littlefs.js:79 | one more piece than there are separators; no piece holds the separator; joining the pieces gives the text back |
| JsText.FirstCrlf | esp8266littlefs.js:78 | the position of the first `\r\n`, or the length when there is none, with no `\r\n` before it |
| JsText.ReplaceFirstCrlf | esp8266littlefs.js:78 | only the carriage return of the first `\r\n` is removed; every other character keeps its order; the number of line feeds is unchanged |
| JsNumber.ParseInt | esp8266littlefs.js:49 | `parseInt(value, radix)`: white space skipped, one sign, `0x` skipped in base 16, then the longest digit run; NaN without a digit (properties: the lemmas below) |
| JsNumber.StringToInt | esp8266littlefs.js:48-50 | `stringToInt`: base 16 exactly when the text starts with `0x` or `0X`, base 10 otherwise (properties: the lemmas below) |
| JsNumber.IntToDecimal | esp8266littlefs.js:189 | `toString` of an integer: a minus sign for a negative number, then its decimal digits without leading zeros; `DecimalRoundTrip` reads it back |
| JsNumber.NumberText | esp8266littlefs.js:104-113 | how a number, NaN included, is written in a template literal or an array join; `NumberTextRoundTrip` reads it back |
| JsNumber.DecimalPrefixParsed | esp8266littlefs.js:48-50 | text that starts with decimal digits and not with `0x` is read in base 10 up to its first non-digit |
| JsNumber.DecimalDigitsParsed | esp8266littlefs.js:48-50 | a text of decimal digits alone reads as their value |
| JsNumber.NegativeDecimalParsed | esp8266littlefs.js:48-50 | a minus sign before decimal digits negates their value |
| JsNumber.HexPrefixParsed | esp8266littlefs.js:48-50 | text that starts with `0x` or `0X` is read in base 16 up to its first non-hexadecimal character |
| JsNumber.HexDigitsParsed | esp8266littlefs.js:48-50 | `0x` followed only by hexadecimal digits reads as their value |
| JsNumber.HexRoundTrip | esp8266littlefs.js:48-50 | `0x` followed by the hexadecimal digits of `n` reads back as `n` |
| JsNumber.NoDigitIsNaN | esp8266littlefs.js:48-50 | `0x` with no hexadecimal digit after it is NaN, and so is a text that starts with something other than a digit, a sign or white space |
| JsNumber.SpaceBeforeHexPrefix | esp8266littlefs.js:48-50 | white space before `0x` defeats the base test: the text is read in base 10 and gives 0 |
| JsNumber.DecimalRoundTrip | esp8266littlefs.js:189 | a number's decimal text, as `toString` writes it, reads back as the number |
| JsNumber.NumberTextRoundTrip | esp8266littlefs.js:189 | the same round trip holds with NaN included |
| JsNumber.DifferenceReadBack | esp8266littlefs.js:189-192 | start plus the read-back text of `end - start` is `end`; it is NaN when either address is NaN |
| JsNumber.Minus | esp8266littlefs.js:189 | a difference is NaN exactly when an operand is |
| JsNumber.Plus | esp8266littlefs.js:192 | a sum is NaN exactly when an operand is |
| JsNumber.ToInt32 | esp8266littlefs.js:97 | the operand of `>>` becomes the one value in [-2^31, 2^31) congruent to it modulo 2^32, and is unchanged when already in range |
| Runner.OutputLines | esp8266littlefs.js:76-80 | the lines one stream is reported as: first `\r\n` replaced, split at line feeds, each piece trimmed (properties: `OutputLinesShape`, `CleanOutputRoundTrip`) |
| Runner.Trimmed | esp8266littlefs.js:80 | `trimRight` applied to each piece, in order |
| Runner.RunLog | esp8266littlefs.js:68-92 | the lines `runCommand` adds to the channel, cut short where a step throws (properties: `RunLogInOrder`, `RunLogSilent`; `RunCommand` is proved to add exactly these) |
| Runner.OutputLinesShape | esp8266littlefs.js:76-80 | a stream is reported as one more line than it has line feeds; no line holds a line feed or ends in white space |
| Runner.CleanOutputRoundTrip | esp8266littlefs.js:76-80 | when the output has no white space besides line feeds, joining the reported lines gives the output back |
| Runner.LogLines | esp8266littlefs.js:80 | the `forEach` appends each line's log entry in line order |
| Runner.RunCommand | esp8266littlefs.js:68-92 | returns the stdout text; throws a TypeError when a spawn error is logged at a non-silent level or a stream is null; the channel grows by exactly the run's report |
| Runner.RunLogInOrder | esp8266littlefs.js:69-89 | at every level but silent a completed run reports, in order: the `Running:` line (at the verbose and debug levels only), the stdout lines, the stderr lines, then one status line exactly when the status is non-zero, each stripped of colour sequences |
| Runner.ShownThenReported | esp8266littlefs.js:69-89 | the same order for any log built as the optional `Running:` line, the two streams' lines and the optional status line |
| Runner.RunLogSilent | esp8266littlefs.js:68-92 | a silent run adds nothing to the channel, whatever the child did |
| BoardConfig.SettingAt | esp8266littlefs.js:174 | `(\S+)=(\S+)` at one position (both directions: `SettingAtShape`, `SettingOfWellFormed`) |
| BoardConfig.Search | esp8266littlefs.js:174-176 | the unanchored match of one pattern: the first position where it matches (`SearchFindsLeftmost`) |
| BoardConfig.LineMatch | esp8266littlefs.js:174-176 | the three `line.match` calls joined with `\|\|`: the board pattern, then the flash-layout pattern, then the partition-scheme pattern |
| BoardConfig.Collect | esp8266littlefs.js:178-179 | each match assigned into the options in turn (`CollectLastWriteWins`) |
| BoardConfig.ScanLines | esp8266littlefs.js:172-181 | the options the scan of all lines builds (`ScanLastWriteWins`, `UnmatchedLineIgnored`) |
| BoardConfig.SettingAtShape | esp8266littlefs.js:174 | what `(\S+)=(\S+)` captures is a non-empty key and a non-empty value with `=` at most as its last character, standing in the line as `key=value` followed by white space or the end |
| BoardConfig.SettingOfWellFormed | esp8266littlefs.js:174 | conversely, `key=value` followed by white space or the end is captured as exactly that key and value |
| BoardConfig.SearchFindsLeftmost | esp8266littlefs.js:174-176 | a pattern matches a line exactly when it matches at some position, and the match found is the one at the leftmost position |
| BoardConfig.HeadLineMatches | esp8266littlefs.js:174-176 | a line `<head>build.<key>=<value>` or `<head>upload.<key>=<value>` matches with that key and value |
| BoardConfig.BoardLineMatches | esp8266littlefs.js:174 | a well-formed line of the board sets its key to its value |
| BoardConfig.EeszLineMatches | esp8266littlefs.js:175 | a well-formed line of the selected flash layout sets its key when the plain board pattern finds nothing on it |
| BoardConfig.SchemeLineMatches | esp8266littlefs.js:176 | a well-formed line of the selected partition scheme sets its key when neither earlier pattern finds anything on it |
| BoardConfig.CollectLastWriteWins | esp8266littlefs.js:178-179 | a key is collected exactly when some match sets it, and it then holds the value of the last such match |
| BoardConfig.ScanLastWriteWins | esp8266littlefs.js:172-181 | the same for the lines of the board definitions |
| BoardConfig.UnmatchedLineIgnored | esp8266littlefs.js:172-181 | a line that matches no pattern changes nothing, wherever it stands |
| BoardConfig.MatchesConcat | esp8266littlefs.js:172-181 | the lines are matched one by one, independently of each other |
| BoardConfig.Resolve | esp8266littlefs.js:183-192 | a missing or empty `spiffs_start` throws its message; otherwise a missing or empty `spiffs_end` throws its message; otherwise the call succeeds |
| BoardConfig.Derived | esp8266littlefs.js:189-192 | the scanned entries with `dataSize`, `flashMode` and `flashFreq` written over them; `flashSize` is taken out here and computed on its own (`DerivedEntries`, `FlashSizeIsEnd`) |
| BoardConfig.DerivedEntries | esp8266littlefs.js:189-192 | every scanned setting except `flashSize` is kept, and `dataSize`, `flashMode` and `flashFreq` are set over any scanned value |
| BoardConfig.FlashSizeIsEnd | esp8266littlefs.js:189-192 | the flash size is the end address, because the size goes through its text and back; it is NaN when either address does not parse |
| BoardConfig.NegativeSizeAccepted | esp8266littlefs.js:189 | an end address below the start address is accepted, and `dataSize` is written with a minus sign |
| BoardConfig.GetLittlefsOptions | esp8266littlefs.js:169-195 | the loop over the lines builds the scanned settings, then the checks and derivations give the result |
| BoardConfig.BoardExample | esp8266littlefs.js:183-192 | with `spiffs_start=0xBB000` and `spiffs_end=0xFB000` the size entry is `"262144"` and the flash size is 0xFB000 |
| Packer.ForwardSlashes | esp8266littlefs.js:59 | no backslash is left; each one became a slash where it stood, and every other character is kept |
| Packer.SlashFreeKept | esp8266littlefs.js:59 | text without a backslash is unchanged |
| Packer.MakeOsPath | esp8266littlefs.js:58-65 | the path handed on never holds a backslash |
| Packer.MakeOsPathShape | esp8266littlefs.js:58-65 | the slashed path is wrapped in double quotes exactly when the path holds a space |
| Packer.PlainPathUnchanged | esp8266littlefs.js:58-65 | a path with neither spaces nor backslashes passes unchanged |
| Packer.QuotedTwice | esp8266littlefs.js:58-65 | quoting is not idempotent: an already quoted path with a space is quoted again |
| Packer.StringList.Push | esp8266littlefs.js:53 | `push` appends at the end |
| Packer.StringList.Unshift | esp8266littlefs.js:54 | `unshift` inserts at the front |
| Packer.MakeMklittlefsArgs | esp8266littlefs.js:52-56 | the same array is returned, now `--debug`, the old items unchanged, then `--all-files` |
| Packer.SizeInK | esp8266littlefs.js:97 | for a size below 2^31 the result is the number of whole KiB plus one |
| Packer.SizeInKExamples | esp8266littlefs.js:97 | an exact multiple of 1024 gets one KiB extra, -1 gives 0, and 2^31 wraps to a negative number |
| Packer.SettingOr | esp8266littlefs.js:98-99 | `given \|\| fallback`: a non-empty setting is used as given; an absent or empty one takes the fallback |
| Packer.PageSize | esp8266littlefs.js:98 | `stringToInt(options.pageSize \|\| "256")` |
| Packer.BlockSize | esp8266littlefs.js:99 | `stringToInt(options.blockSize \|\| "4096")` |
| Packer.DefaultSizes | esp8266littlefs.js:98-99 | without settings the page size is 256 and the block size 4096 |
| Packer.ArgsCore | esp8266littlefs.js:109-115 | the list `packLittlefs` builds before wrapping it, numbers written as an array join writes them |
| Packer.PackArgs | esp8266littlefs.js:108-115 | that list after `makeMklittlefsArgs` (item by item: `PackArgsOrder`) |
| Packer.PackArgsOrder | esp8266littlefs.js:108-115 | the packer gets eleven arguments; each option is followed by its value, the image comes last before `--all-files`, and `--debug` takes no value |
| Packer.PackLittlefs | esp8266littlefs.js:94-123 | the program is the normalised packer path and the arguments are the wrapped list. The channel receives the report, the command line, what the run logs, and the closing line unless the run threw |

## Left out

- Console output and colours: only the output channel is modelled, and the
  `show()` call has no visible effect on it.
- The channel's creation on activation: the log level is fixed at
  construction and taken as a parameter. The code always runs at `"normal"`,
  because reading the level from the settings is commented out. A `log` before
  activation, when the channel is still null, is not modelled.
- `spawnSync` itself: its result record (error, both streams, status) is an
  input to `RunCommand` and `PackLittlefs`.
- `getMkLittlefs` and `fileExists`: they need the file system.
- Reading `boards.txt` through `readLines` and `packagesPath`: neither is
  defined in the file. The lines are an input.
- `arduinoJson.PartitionScheme` and `preferences.flash_mode` /
  `preferences.flash_freq` are not defined in the file. They are parameters.
- BoardConfig.GetLittlefsOptions: `toHex` is not defined in the file. The
  result therefore carries the number behind `flashSize`, not its `"0x"`
  text, and the `flashSize` key is set apart from the other entries.
- `executeLittlefs`, `activate`, `deactivate`, `getTarget`, `getPort`,
  `getDataFilesPath`, and the empty upload, download, unpack, list and
  visualize stubs: VS Code glue and constants with no behaviour to prove.
- BoardConfig.LineMatch: the board id, flash size and partition scheme are
  treated as literal text. A regular-expression metacharacter in them (a `.`
  in a board id, say) is not interpreted.
- BoardConfig.Collect: a key such as `__proto__`, which a plain JavaScript
  object does not store as an own property, is collected like any other key.
- Packer.SizeInK: `options.dataSize` is taken to be an integer. Fractional
  and non-numeric sizes are not modelled.
- Numbers are unbounded integers rather than doubles. Precision loss above
  2^53 is not modelled.
- Strings are sequences of Unicode scalar values, not JavaScript's UTF-16
  code units, so a lone surrogate cannot be represented. No modelled
  operation depends on the difference: every character they test is in the
  Basic Multilingual Plane.
