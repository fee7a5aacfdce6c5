# Stockfish UCI client, modelled in Dafny

This project models the Python client of the `stockfish` package. The client
drives a Stockfish chess engine over the Universal Chess Interface (UCI): it
writes text commands to the engine's standard input and reads the engine's
replies one line at a time. Two versions of the client are modelled, plus the
ANSI colour helper:

- `stockfish/models.py` (module `StockfishModels`).
  - The constructor merges the caller's options into the module-level
    `DEFAULT_STOCKFISH_PARAMS` dict. It does this in place, so the dict is
    shared by every instance.
  - After each `setoption` it waits for `readyok`, then starts a new game.
  - `get_best_move` returns the move, or `None` for `bestmove (none)`. It
    remembers the stripped line read just before the `bestmove` line as
    `info`, but only when it returns a move: after `bestmove (none)` or a
    bare `bestmove`, `info` keeps its old value.
  - `is_move_correct` makes a depth-1 search restricted to one move.
- `stockfish.py`, the older single-file client (module `StockfishLegacy`).
  - Its option table is a fresh dict per instance, with the extra
    `Contempt Factor` entry.
  - `set_position` waits for `readyok`.
  - It returns the raw second token of the `bestmove` line, `(none)` included.
  - `__set_option` looks for `No such` in the barrier's answer. The barrier
    only ever answers `readyok`, so that check never fires.
- `stockfish/color.py` (module `AnsiColor`).
  - A string wrapped in an SGR escape sequence (`ESC [ ... m text ESC [0m`).
  - `fg_color` and `bg_color` insert `;38;2;r;g;b` or `;48;2;r;g;b` right
    after the `ESC [` marker, using the `[2:-4]` slice of the old string.

Shared modules:

- `PyTypes`: Python's `Optional` and the `IndexError` a caller can see,
  as `Option` and `Result`.
- `PyStr`: the Python `str` behaviour the client relies on, stated exactly:
  - `isspace` and `strip()`;
  - `split(" ")`, which does not collapse separators;
  - `join`, `find`, slices with negative bounds, and `str(int)`.
- `Params`: dicts with insertion order, `dict.update`, and a `ParamDict`
  class for a dict held by reference.
- `Channel`: the engine process as a `Pipe` object.
  - `input` holds every line the engine will print.
  - `pos` counts the lines read so far.
  - `sent` holds the commands written so far.
  - `FirstIndex`, `Count` and `Waits` say where a wait for `readyok` or for
    `bestmove` stops reading.
- `Uci`: the command vocabulary, as a `Command` datatype with its text
  `Line(c)`; the replies a client waits for (`readyok` and `bestmove`
  lines); the `bestmove` line parser; and the move-list joiner.

Each method that reads replies is proved against these specification
functions. Its `ensures` gives the exact commands written, the exact line the
reader stops after, and the result as a function of that line. The lemmas
then give the properties of those functions:

- a wait stops at the first matching line;
- `k` waits succeed exactly when `k` matching lines remain;
- a `bestmove <move> ...` line yields `<move>`, while a bare `bestmove`
  raises IndexError;
- a dict update keeps the old keys in place and takes the caller's values;
- the joined moves, the depth and the colour components read back from the
  command text.

Some behaviour of these files that a reader of other versions of the package
might not expect:

- The option defaults here are `Write Debug Log = "false"`,
  `Move Overhead = 30` and `Slow Mover = 80`. There is no
  `UCI_LimitStrength` or `UCI_Elo`.
- `set_fen_position` always sends `ucinewgame` and does not clear `info`.
- The mate case of `get_best_move` returns `None`, although its docstring
  and `tests/stockfish/test_models.py:23` expect `False`.

## Model

| member | source | states |
|---|---|---|
| `StockfishModels.DefaultParams` | stockfish/models.py:11-24 | the default option table has twelve entries, each key once |
| `StockfishModels.LoadDefaultParams` | stockfish/models.py:11-24 | the module creates one dict object holding exactly the defaults |
| `StockfishModels.OverridesPersist` | stockfish/models.py:44-45 | every instance updates the same dict, so an option set by one caller survives a later construction that does not name it |
| `StockfishModels.BestMoveReported` | stockfish/models.py:108-114 | for `bestmove <move> ...`, get_best_move gives `None` when the move is `(none)` and the move otherwise; is_move_correct gives `move != "(none)"` |
| `StockfishModels.Stockfish.constructor` | stockfish/models.py:30-49 | the shared defaults become `Updated(defaults, params)` and this instance holds that same object; depth is `str(depth)`, `info` is empty; the commands are `uci`, one `setoption` and `isready` per option in dict order, then `ucinewgame` and `isready`; exactly `n + 1` barriers consume the reply lines |
| `StockfishModels.Stockfish.ApplyOptions` | stockfish/models.py:46-49 | the option commands of every item in order, then a new game; reading stops after the `n + 1`-th `readyok` line |
| `StockfishModels.Stockfish.SetOptions` | stockfish/models.py:46-47 | the loop sends `setoption name K value V` and `isready` for each item in order, and after item `i` has consumed exactly `i` barriers |
| `StockfishModels.Stockfish.StartNewGame` | stockfish/models.py:51-53 | writes `ucinewgame`, `isready` and reads through the first `readyok` line |
| `StockfishModels.Stockfish.Put` | stockfish/models.py:55-57 | appends exactly one command and reads nothing |
| `StockfishModels.Stockfish.SetOption` | stockfish/models.py:59-61 | writes the `setoption` command and the barrier, and reads through the first `readyok` line |
| `StockfishModels.Stockfish.IsReady` | stockfish/models.py:63-67 | writes `isready` and stops right after the first line that strips to `readyok`, dropping every line before it |
| `StockfishModels.Stockfish.Go` | stockfish/models.py:69-70 | writes `go depth` with the stored depth text |
| `StockfishModels.Stockfish.SetPosition` | stockfish/models.py:79-93 | writes one `position startpos moves` command with the joined moves (`None` as no moves) and reads nothing |
| `StockfishModels.Stockfish.SetFenPosition` | stockfish/models.py:95-97 | a new game with its barrier, then `position fen <fen>`; `info` is not touched |
| `StockfishModels.Stockfish.GetBestMove` | stockfish/models.py:99-115 | writes `go depth`, stops after the first `bestmove` line and returns that line's move, `None` for `(none)`, or IndexError; `info` becomes the stripped line before it (empty if none) only when a move is returned |
| `StockfishModels.Stockfish.IsMoveCorrect` | stockfish/models.py:117-134 | writes `go depth 1 searchmoves <move>`, stops after the first `bestmove` line and answers whether its move is not `(none)`; `info` is unchanged |
| `StockfishLegacy.LegacyDefaults` | stockfish.py:20-34 | the legacy table has thirteen entries, each key once |
| `StockfishLegacy.NoSuchNeverFound` | stockfish.py:53-55 | `"readyok".find("No such")` is -1, so the warning is unreachable |
| `StockfishLegacy.Stockfish.constructor` | stockfish.py:6-41 | a fresh table `Updated(defaults, param)` per instance; depth is `str(depth)`; the same command sequence and barrier count as the package version |
| `StockfishLegacy.Stockfish.ApplyOptions` | stockfish.py:36-41 | the option commands of every item in order, then a new game, consuming `n + 1` barriers |
| `StockfishLegacy.Stockfish.SetOptions` | stockfish.py:38-39 | one `setoption` and `isready` per item in dict order, one barrier each |
| `StockfishLegacy.Stockfish.StartNewGame` | stockfish.py:43-45 | `ucinewgame`, `isready`, read through the first `readyok` line |
| `StockfishLegacy.Stockfish.Put` | stockfish.py:47-49 | appends exactly one command and reads nothing |
| `StockfishLegacy.Stockfish.SetOption` | stockfish.py:51-55 | the `setoption` command and a barrier; the `No such` branch is never taken |
| `StockfishLegacy.Stockfish.SetPosition` | stockfish.py:57-65 | the `position startpos moves` command with the joined moves, then a barrier |
| `StockfishLegacy.Stockfish.Go` | stockfish.py:67-68 | writes `go depth` with the stored depth text |
| `StockfishLegacy.Stockfish.GetBestMove` | stockfish.py:77-83 | stops after the first `bestmove` line and returns its second token, `(none)` included, or IndexError for a bare `bestmove` |
| `StockfishLegacy.Stockfish.IsReady` | stockfish.py:85-90 | returns the text `readyok` and stops right after the first line that strips to it |
| `Uci.FirstTokenForm` | stockfish/models.py:109-110 | the first token of `split(" ")` is a space-free word exactly when the text is the word alone or the word and a space |
| `Uci.BestMoveLineForm` | stockfish/models.py:108-110 | a line is a `bestmove` line exactly when its stripped text is `bestmove` or starts with `bestmove ` |
| `Uci.BestMoveTokenOf` | stockfish.py:80-83 | for `bestmove <move>` followed by nothing or by a space, the token returned is `<move>` |
| `Uci.BareBestMove` | stockfish/models.py:110-111 | a bare `bestmove` line has no second token, and indexing it raises IndexError |
| `Uci.OptionLinesAt` | stockfish/models.py:46-47 | the option commands alternate: item `i`'s `setoption` sits at position `2 i`, followed by `isready` |
| `Uci.GoCommandTokens` | stockfish/models.py:69-70 | `go depth str(d)` splits into three tokens and the third reads back as `d` |
| `Uci.TerminatedJoin` | stockfish/models.py:74-76 | the joiner's loop builds the space-joined moves plus one trailing space |
| `Uci.MoveListJoined` | stockfish.py:70-75 | for moves without whitespace whose outer moves are not empty, the joiner returns exactly the space-joined moves, and `""` for none |
| `Uci.ConvertMoveListToStr` | stockfish/models.py:72-77 | the loop's result, stripped, equals the joined-moves specification |
| `Uci.StartposSplit` | stockfish/models.py:93 | the position command reads as `position`, `startpos`, `moves` and then the fields of the joined moves |
| `Uci.StartposTokens` | stockfish.py:63-64 | space-free moves come back one per token; no moves leaves one empty token after `moves` |
| `Uci.Line` | stockfish/models.py:37-126 | the text of each command as written: `uci`, `isready`, `ucinewgame`, `setoption name N value str(V)`, `go depth D`, `go depth 1 searchmoves M`, `position startpos moves J`, `position fen F` (models.py lines 37, 52, 60, 64, 70, 93, 97, 126; stockfish.py lines 18, 44, 52, 63, 68, 86) |
| `Uci.OptionLines` | stockfish/models.py:46-47 | the commands the option loop writes: `setoption` and then `isready` for each item, in dict order |
| `Uci.IsReadyOk` | stockfish/models.py:66 | the barrier's test: the line read, stripped, is `readyok` (also stockfish.py:88-89) |
| `Uci.Tokens` | stockfish/models.py:108-109 | `readline().strip().split(" ")`, which always has a first token |
| `Uci.IsBestMoveLine` | stockfish/models.py:110 | the search loops' test: the first token is `bestmove` (also stockfish.py:82) |
| `Uci.BestMoveToken` | stockfish.py:80-83 | `split_text[1]` of the line: the second token, or IndexError when there is none (also models.py:111) |
| `Uci.Ends` | stockfish.py:82-89 | which test ends which wait: the `readyok` test for the barrier, the `bestmove` test for a search |
| `Uci.Terminated` | stockfish/models.py:74-76 | what the joiner's loop has accumulated: each move followed by one space |
| `Uci.MoveListStr` | stockfish/models.py:77 | what the joiner returns: the accumulation, stripped |
| `StockfishModels.BestMoveResult` | stockfish/models.py:110-114 | get_best_move's answer for its `bestmove` line: IndexError, `None` for `(none)`, or the move |
| `StockfishModels.MoveCheckResult` | stockfish/models.py:130-134 | is_move_correct's answer for its `bestmove` line: IndexError, or whether the move is not `(none)` |
| `StockfishModels.LastText` | stockfish/models.py:106-115 | `last_text` when the `bestmove` line is reached: the stripped line read just before it, or `""` if it was the first line read |
| `Params.Lookup` | stockfish/models.py:45 | the value a dict holds for a key, or none; the update lemmas are stated with it |
| `Params.Assign` | stockfish.py:36 | `d[k] = v` as `update` performs it: an existing key keeps its place and takes the value, and a new key goes at the end |
| `Params.Updated` | stockfish/models.py:45 | `d.update(other)`: each of `other`'s items assigned in its order |
| `PyStr.Strip` | stockfish/models.py:66 | `str.strip()` with no argument, over Python's whitespace set |
| `PyStr.Split` | stockfish/models.py:109 | `str.split(" ")` with an explicit separator: adjacent separators give empty fields |
| `PyStr.Join` | stockfish/models.py:72-77 | `" ".join(moves)`, which the joiner amounts to for plain moves |
| `PyStr.Decimal` | stockfish/models.py:39 | `str(depth)` and the other `str` of an int: an optional minus sign and decimal digits |
| `PyStr.PySlice` | stockfish/color.py:12 | `s[i:j]` with Python's negative and clamped bounds, as in `self.string[2:-4]` |
| `AnsiColor.Segment` | stockfish/color.py:13 | the text a colour call inserts: `;38;2;r;g;b` for foreground, `;48;2;r;g;b` for background (color.py:19) |
| `AnsiColor.Recolor` | stockfish/color.py:12-13 | the new string of a colour call: start marker, segment, old string's `[2:-4]`, end marker |
| `AnsiColor.Painted` | stockfish/color.py:5-19 | the string after wrapping the text and applying the colour calls in order, the latest segment first |
| `Channel.Count` | stockfish/models.py:46-49 | how many of the remaining reply lines end a wait, so how many barriers can complete |
| `Channel.Waits` | stockfish/models.py:46-49 | where the reader stands after `k` successive barriers, or none if the lines run out |
| `Channel.Pipe.constructor` | stockfish/models.py:33-35 | a started engine: nothing written, nothing read |
| `Channel.Pipe.Write` | stockfish/models.py:55-57 | one written line appended, reading position unchanged |
| `Channel.Pipe.ReadLine` | stockfish/models.py:66 | returns the next engine line and advances by one |
| `Channel.FirstIndex` | stockfish/models.py:65-67 | the index found is in range and at or after the start |
| `Channel.FirstIndexEnds` | stockfish/models.py:66-67 | the line at the index found ends the wait |
| `Channel.FirstIndexFirst` | stockfish/models.py:65-67 | any matching line at or after the start means an index is found, and no later than that line |
| `Channel.FirstIndexStep` | stockfish/models.py:65-67 | reading one line: the wait stops there when that line matches, and otherwise the first match is the one after it |
| `Channel.CountPastFirst` | stockfish/models.py:63-67 | one wait consumes exactly one matching line, and none is left when none is found |
| `Channel.WaitsCount` | stockfish/models.py:46-49 | `k` successive waits succeed exactly when at least `k` matching lines remain, and they consume exactly `k` of them |
| `Channel.WaitsNext` | stockfish/models.py:46-47 | while more matching lines remain than waits done, the next wait succeeds and ends just past the next match |
| `Params.Show` | stockfish/models.py:60 | `str` of a value: strings as they are, ints that read back as the same number, `True`/`False` for bools |
| `Params.UpdatedLookup` | stockfish/models.py:45 | after `update`, a key of the caller's dict has the caller's value and every other key keeps its old value |
| `Params.UpdatedKeys` | stockfish/models.py:45-46 | `update` keeps the existing keys in place and appends the new ones in the caller's order, so the options are sent defaults first |
| `Params.UpdatedDistinct` | stockfish.py:36 | the updated table still holds each key once |
| `Params.AssignKeys` | stockfish.py:36 | assigning a key keeps an existing key's place, or appends a new one |
| `Params.AssignLookup` | stockfish.py:36 | after assigning a key, it maps to the new value and every other key to its old value |
| `Params.ParamDict.constructor` | stockfish/models.py:11 | the dict holds exactly its initial items |
| `Params.ParamDict.Update` | stockfish/models.py:45 | `update` changes the shared dict in place to `Updated(old, other)` and keeps its keys distinct |
| `PyStr.StripShape` | stockfish/models.py:108 | `strip()` removes exactly a run of whitespace on each side, and the result neither starts nor ends with whitespace |
| `PyStr.SplitFields` | stockfish/models.py:109 | no field of `split(sep)` holds the separator, and the first field is the text up to the first separator |
| `PyStr.SplitJoin` | stockfish/models.py:93 | splitting a join of separator-free pieces gives back the pieces |
| `PyStr.JoinSplit` | stockfish.py:81 | joining the fields of a split gives back the text |
| `PyStr.Find` | stockfish.py:54 | `find` returns -1 exactly when the substring occurs nowhere, and otherwise its lowest index |
| `PyStr.DecimalRoundTrip` | stockfish/models.py:39 | `int(str(n)) == n` |
| `PyStr.SliceInner` | stockfish/color.py:12 | the slice `[len(p):-len(q)]` of `p + mid + q` is `mid` |
| `AnsiColor.Color.constructor` | stockfish/color.py:2-5 | the stored string is `ESC [`, `m`, the text, `ESC [0m`, with no colour calls made |
| `AnsiColor.Color.ToString` | stockfish/color.py:7-8 | returns the stored string, which starts with `ESC [` and ends with `m`, the text and `ESC [0m` |
| `AnsiColor.Color.FgColor` | stockfish/color.py:10-14 | inserts `;38;2;r;g;b` after the start marker, keeps the rest between the markers, and returns this object |
| `AnsiColor.Color.BgColor` | stockfish/color.py:16-20 | inserts `;48;2;r;g;b` after the start marker, keeps the rest between the markers, and returns this object |
| `AnsiColor.RecolorPainted` | stockfish/color.py:12-13 | the `[2:-4]` re-wrapping after any earlier calls gives the painted string with the new segment first |
| `AnsiColor.PaintedEnds` | stockfish/color.py:5 | after any sequence of calls the string has both markers in place and `m`, the text and the end marker at its end |
| `AnsiColor.PaintedInner` | stockfish/color.py:12 | after any sequence of calls, `[2:-4]` cuts off exactly the two markers |
| `AnsiColor.PaintedGrowth` | stockfish/color.py:13 | each call lengthens the string by exactly its segment |
| `AnsiColor.SegmentParameters` | stockfish/color.py:13 | the segment's `;`-separated parameters are empty, 38 or 48, 2, and the three components, which read back as the numbers given |

## Left out

- The constructors take `depth` explicitly. The source default is `depth=2` (stockfish/models.py:31, stockfish.py:6), so `Stockfish()` with no arguments writes `go depth 2`; the path default `"stockfish"` goes with the process start below.
- Starting the engine (`subprocess.Popen` with a path), `flush`, and `__del__`/`kill` are not modelled. The constructors take the lines the engine will print as a parameter.
- The text of a command is `Line(c)`. The newline that `__put` appends is not part of `sent`.
- `DEFAULT_STOCKFISH_PARAMS` is a module-level dict. Dafny has no mutable globals, so it is a `ParamDict` object created by `LoadDefaultParams` and passed to the constructor.
- The loops in `__is_ready`, `__isready`, `get_best_move` and `is_move_correct` never end if no matching line ever comes. The methods therefore require that such a line exists. The constructors require enough `readyok` lines for all their barriers.
- End of file on the engine's output is not modelled: `readline()` returning `""` forever is covered by the requirement above.
- The `print` in `stockfish.py:55` is not modelled; `StockfishLegacy.NoSuchNeverFound` shows it cannot be reached.
- Option values are strings, ints or bools. Other Python values a caller might pass are not modelled.
- Chess itself is not modelled: which moves are legal, and what the engine answers.
- The tail and the loop of each `__init__` are separate methods (`ApplyOptions` and `SetOptions`), so each can be proved on its own.
- The `string` attribute of `Color` is named `contents`, since `string` is a Dafny type name.
- Colour components are not range-checked, because the source does not check them either. Any integer is written in decimal.
- `tests/stockfish/test_models.py:46` reads `self.info` on the test class rather than on the client. It states nothing about the client.
