# Demucs GUI: progress scraping, command line and input state

`demucsGUI.py` is a small Qt front-end for the `demucs.separate` source
separation tool. The user picks a WAV file (`fuente`) by clicking the drop
area or by dropping a file on it, and picks an output folder (`salida`). Pressing
"EJECUTAR" then starts a `DemucsWorker` thread. The worker runs
`python -m demucs.separate ... <fuente> -o <salida>` and reads the tool's
merged output line by line. Each line that carries an integer before its
first `%` becomes a `progress(int)` signal. When the output ends and the
process has exited, the worker emits `finished()`.

The model has five modules:

- `Wrappers`: `Option`, Python's `None` or a value.
- `Text`: the Python string operations the code uses:
  - `str.strip()`, over the full `str.isspace()` set;
  - `split(sep)[0]` and `split(sep)[-1]`;
  - `endswith`;
  - the decimal subset of `int()`;
  - `str(n)`, used to state round trips.
- `Progress`: the per-line parse `int(line.split("%")[0].strip())` and the
  worker's signal stream, as functions. Lemmas cover the value parsed,
  skipped lines, order, the single `finished`, and appending output.
- `Worker`: the fixed argument list, and the `DemucsWorker` class. Its `Run`
  method is the thread body's loop, proved to emit exactly `Events(output)`.
- `Gui`: the `DemucsGui` class. It keeps `fuente`, `salida`, the displayed
  labels, the last worker and the warnings shown. Its methods mirror the four
  handlers, and three session methods run the handlers in sequence.

The process's output is a parameter: `seq<string>`, one element per line as
Python's text-mode iterator yields it, trailing `\n` included. Each dialog
becomes the path it returns, with the empty string for a cancelled dialog.
A drop event becomes "is it on the drop area", its kind, and its URLs as
local paths.

## Model

| member | source | states |
|---|---|---|
| Text.Strip | demucsGUI.py:52 | the stripped text is empty or has no whitespace at either end |
| Text.StripPadded | demucsGUI.py:52 | stripping `a + t + b` with all-whitespace `a`, `b` gives back exactly `t` when `t` has no whitespace at its ends |
| Text.FirstField | demucsGUI.py:52 | `line.split("%")[0]` is a prefix of the line, holds no `%`, and is followed by `%` when shorter than the line |
| Text.FirstFieldBefore | demucsGUI.py:52 | the first field of `x + "%" + rest` is `x` whatever `rest` holds, when `x` has no `%` |
| Text.LastField | demucsGUI.py:161 | `path.split("/")[-1]` is a suffix of the path, holds no `/`, and is preceded by `/` when shorter than the path |
| Text.LastFieldAfter | demucsGUI.py:172 | the base name of `dir + "/" + name` is `name` whenever `name` has no `/` |
| Text.ParseInt | demucsGUI.py:52 | `int()` succeeds exactly on an optional sign followed by one or more ASCII digits, with no limit on their number |
| Text.ParseIntValue | demucsGUI.py:52 | every accepted literal, an optional sign then any leading zeros then the digits of `k`, parses to `k`, or `-k` under a minus sign (`007` is 7, `+5` is 5, `-05` is -5) |
| Text.DigitsCanonical | demucsGUI.py:52 | every digit string is some zeros followed by the canonical digits of a number, so the previous row covers every accepted literal |
| Text.LeadingZeros | demucsGUI.py:52 | leading zeros do not change the value of a digit string |
| Text.ParseFormat | demucsGUI.py:52 | `int(str(n)) == n` for every integer, negative and above 100 included |
| Progress.ProgressOf | demucsGUI.py:50 | a line without `%` yields no value |
| Progress.ProgressOfPadded | demucsGUI.py:52-53 | a line `<spaces><n><spaces>%<anything>` yields exactly `n`, with no clamping to 0..100 |
| Progress.ProgressOfValue | demucsGUI.py:52-53 | a line `<n>%<anything>` yields exactly `n` |
| Progress.NonIntegerSkipped | demucsGUI.py:54-55 | when the stripped text before `%` is not an integer literal, the line yields nothing |
| Progress.StrayCharSkipped | demucsGUI.py:54-55 | one character before the first `%` that is not whitespace, a digit or a sign makes the line yield nothing |
| Progress.NothingBeforePercent | demucsGUI.py:52-55 | a line starting with `%` yields nothing |
| Progress.SkipExamples | demucsGUI.py:50-55 | `done`, `abc%` and `%` all yield nothing |
| Progress.Scan | demucsGUI.py:49-55 | the loop emits at most one signal per line, and every signal it emits is a progress signal |
| Progress.Events | demucsGUI.py:49-58 | a run ends with `finished`, `finished` occurs exactly once, and every earlier signal is a progress signal |
| Progress.ScanAppend | demucsGUI.py:49-55 | the signals for two stretches of output are those of the first followed by those of the second |
| Progress.ScanMatches | demucsGUI.py:49-55 | the k-th signal carries the value of the k-th line that yields one, and those lines are in ascending order |
| Progress.MatchesComplete | demucsGUI.py:49-55 | every line not among the matched lines yields nothing |
| Progress.ScanSkip | demucsGUI.py:54-55 | deleting a line that yields nothing leaves the signals unchanged |
| Progress.ScanAllRead | demucsGUI.py:49-53 | when every line yields a value, there is one signal per line with those values in order |
| Progress.EventsFollowLines | demucsGUI.py:49-58 | a run's progress signals are in output order: one per value-yielding line, carrying that line's value, all other lines skipped |
| Progress.EventsAppend | demucsGUI.py:49-58 | more output appends its progress signals before the single `finished` |
| Progress.SkippedLine | demucsGUI.py:54-55 | an unparseable line is skipped and processing continues: the run emits what it would without that line |
| Progress.EventsOfPercentLines | demucsGUI.py:49-58 | output made of `<n>%` lines gives exactly those values in order, then `finished` |
| Progress.ThreeProgressLines | demucsGUI.py:49-58 | output `10%`, `50%`, `100%` yields progress 10, 50, 100 and then `finished` |
| Worker.SeparationCommand | demucsGUI.py:34-42 | the argument list has 12 entries and starts `python -m demucs.separate`; the file is at index 9 and the folder at index 11 |
| Worker.CommandTemplate | demucsGUI.py:34-42 | all positions except the file and the folder are fixed, and two lists are equal exactly when their files and folders are |
| Worker.DemucsWorker.constructor | demucsGUI.py:28-31 | a new worker holds the given file and folder, has launched nothing and has emitted nothing |
| Worker.DemucsWorker.Run | demucsGUI.py:33-58 | `run` launches the fixed argument list and appends exactly `Events(output)`: the progress signals in line order, then one `finished` |
| Gui.DemucsGui.constructor | demucsGUI.py:110-138 | the window starts with no file and no folder, the drop prompt shown, empty name and path fields, no worker and no warning |
| Gui.DemucsGui.OpenFileDialog | demucsGUI.py:157-164 | a non-empty selection becomes `fuente`, shows the image and `Archivo cargado: <base name>`; a cancelled dialog changes nothing; `salida` is untouched |
| Gui.DemucsGui.EventFilter | demucsGUI.py:166-181 | a drop on the drop area is handled. Its first URL becomes `fuente` only if it ends in `.wav`, and then the bare base name is shown; otherwise only the label changes, to the `.wav` warning. A drag-enter on the drop area is handled. Everything else is passed on unhandled and changes nothing |
| Gui.DemucsGui.BrowseOutputDirectory | demucsGUI.py:183-187 | a non-empty folder becomes `salida` and fills the path field; a cancelled dialog changes nothing; `fuente` is untouched |
| Gui.DemucsGui.ExecuteCommand | demucsGUI.py:189-199 | a job starts exactly when `fuente` and `salida` are both truthy: a fresh worker gets those two paths. Otherwise the warning is appended and the previous worker is kept |
| Gui.SeparateOneFile | demucsGUI.py:157-199 | click, choose a folder, execute: the job starts with the chosen paths, and the listener sees `Events(output)` |
| Gui.TwoJobs | demucsGUI.py:166-199 | one drop carrying two `.wav` files, then choosing a folder and executing twice gives two workers; both take the first dropped file as their source, and each emits only its own run's signals |
| Gui.MissingSource | demucsGUI.py:166-199 | a dropped non-`.wav` file leaves no source, so executing starts nothing, shows one warning and leaves the `.wav` message on the drop area |

## Left out

- Qt presentation is not modelled: widgets, stylesheet, icon, pixmap scaling, `ProgressDialog` and the message boxes' titles. Labels keep only their text or an image marker, and warnings keep only their message.
- `process_finished` is not modelled. It closes the progress dialog and shows the completion box, which is presentation only.
- Threading is not modelled: `QThread` start and cross-thread signal delivery. `Run` runs synchronously and records its signals in `emitted`.
- `subprocess.Popen`, `process.wait` and UTF-8 decoding are OS I/O. The output is a parameter of `Run`, and the launch is recorded as the argument list in `command`.
- The separation itself in `demucs.separate` is a foreign library; `demucsTEST.py` only calls it with constant arguments.
- The `__main__` block is start-up code with no behaviour of its own.
- `Text.ParseInt`: accepts only `[+-]?[0-9]+`, leading zeros included. Python's `int()` also takes `_` separators and non-ASCII Unicode digits; both are outside this model. Python also rejects literals longer than `sys.get_int_max_str_digits()` digits (4300 by default), leading zeros included, so such a line is skipped; the model accepts them.
- `Gui.DemucsGui.EventFilter`: a drop whose MIME data reports URLs but whose list is empty would raise an `IndexError` in Python. The model treats "has URLs" as "the list is not empty".
- `Gui.DemucsGui.EventFilter`: `QUrl.toLocalFile()` conversion is not modelled; URLs arrive as local paths.
- `Gui.DemucsGui.EventFilter`: for events it does not handle, the base class's `eventFilter` is taken to return false.
- Text typed by hand into the output path field is not modelled; the code never reads it, and only the folder dialog sets `salida`.
- The code neither checks nor clamps progress values, so `Progress.ProgressOfPadded` lets any integer through.
- The code has no launch-failure notification and discards the exit code of `process.wait()`; neither is modelled.
- `Worker.DemucsWorker.Run`: assumes the launch, the UTF-8 decoding of every line and every emit succeed. In the code, only `ValueError` is caught. Any other exception ends the thread before `finished` is emitted: `Popen` failing to start the tool, a decoding error while iterating, or a value outside the C `int` range reaching `Signal(int)`. `Progress.Event`'s `Percent` carries an unbounded integer where the real signal carries a 32-bit one, and `Progress.Events` therefore promises one `finished` unconditionally.
- The click and drop paths name the loaded file differently: with and without the `Archivo cargado: ` prefix. The file dialog's `*.wav` filter is not re-checked after selection. Both are modelled as written.
