# Student barcode lookup — scan buffer and student display names, in Dafny

This project models the two pieces of the student barcode lookup desktop
application that carry logic of their own:

- **The barcode scan buffer** (`BarcodeService`). A USB scanner types a roll
  number as a fast burst of key presses ended by Enter. The service has three
  pieces of state: whether it is listening, a character buffer, and the time
  of the last processed key. It turns the key stream into whole barcode
  strings. A gap of more than 100 ms between keys discards what was buffered.
  Enter/Return emits the buffer when it is non-empty. A fixed key table
  decides which keys add a character.
- **The student record's derived names** (`Student.FullName`,
  `Student.Initials`). These are the display name and the avatar initials,
  with a roll-number fallback.

Modules:

- `Wrappers` (`wrappers.dfy`): `Option`.
- `Keys` (`keys.dfy`): the key type, the terminator keys, the key-to-character
  table `KeyToChar`, its inverse `Producers`, and `Mapped` (the characters a
  key sequence contributes).
- `ScanBuffer` (`scan_buffer.dfy`): the `Session` state and the operations
  `StartListening`, `StopListening` and `ProcessKeyInput`, plus `Run` over any
  sequence of calls.
  - The wall clock is an explicit `now` argument, an integer count of 100 ns
    ticks. The timeout is `100 * 10000` ticks.
  - The `BarcodeScanned` event is the optional string that a key press
    returns.
  - The clock reading taken when the service is built is the argument of
    `Init`.
- `ScanTrace` (`scan_trace.dfy`): key streams fed to a listening session.
  - `Pending` is a reference definition: "the mapped characters typed since
    the last reset", where a reset is a gap over the timeout or a terminator.
  - `FeedBuffer` and `FeedEmits` prove that the step function agrees with
    `Pending` after every stream and at every event.
  - It also holds the scan scenarios.
- `Text` (`text.dfy`): white space, trimming and upper-casing over ASCII.
- `Students` (`student.dfy`): `FullName`, its inverse `SplitFullName`, and
  `Initials`.

Key values are the numeric values of the host framework's key enumeration
(`System.Windows.Input.Key`). `Return` and `Enter` are the same value there,
so the model defines both constants as 6. That enumeration is not part of
this model.

`StopListening` clears the buffer only when the service is listening. At
Services/BarcodeService.cs line 37 it returns at once when the service is
already stopped. Under the session invariant `Valid`, a stopped session's
buffer is already empty, so after any stop the buffer is empty.

## Model

| member | source | states |
|---|---|---|
| Keys.KeyToChar | Services/BarcodeService.cs:74-86 | Every mapped key yields a character of the barcode alphabet (digits, A-Z, '-', '.', ' '); Enter/Return map to nothing, so a terminator is never a character |
| Keys.KeyToCharMatchesProducers | Services/BarcodeService.cs:74-86 | A key maps to `c` if and only if it is in `Producers(c)`: main-row and numeric-pad digit keys give their digit, letter keys the upper-case letter, OemMinus/Subtract give '-', OemPeriod/Decimal give '.', Space gives ' ', and no other key gives anything |
| Keys.AlphabetIsReachable | Services/BarcodeService.cs:73-86 | A character can be produced by some key exactly when it is in the barcode alphabet |
| Keys.IsTerminator | Services/BarcodeService.cs:56 | A key ends a scan exactly when it is Enter or Return. Both are the same key value |
| Keys.Mapped | Services/BarcodeService.cs:68-70 | The characters a key sequence contributes are all in the alphabet and number at most the keys; when every key is mapped, there is one character per key |
| Text.IsWhiteSpace | Models/Student.cs:37-38 | The white-space test used by trimming and blank checks. It covers ASCII white space only: tab, line feed, vertical tab, form feed, carriage return and space |
| Text.IsBlank | Models/Student.cs:37-43 | A string is blank when every character is white space, including the empty string. This models the null-or-white-space test, without null and over ASCII white space only |
| Text.ToUpper | Models/Student.cs:41-45 | Lower-case ASCII letters become the corresponding upper-case letter; every other character is unchanged |
| Text.FirstSolid | Models/Student.cs:37-38 | For a non-blank string, the index of the first character that is not white space, with only white space before it |
| Text.TrimStart | Models/Student.cs:37-38 | Drops exactly the leading white space: the result is a suffix, everything removed is white space, and the result does not start with white space |
| Text.TrimEnd | Models/Student.cs:37-38 | Drops exactly the trailing white space: the result is a prefix, everything removed is white space, and the result does not end with white space |
| Text.Trim | Models/Student.cs:37-41 | The trimmed string is empty if and only if the string is blank. Otherwise it is the middle of the string: it begins at the first non-white-space character, ends with a non-white-space character, and only white space follows it in the string |
| Students.FullName | Models/Student.cs:29 | The full name is the first name, one space, and the last name, even when either is empty |
| Students.SplitFullName | Models/Student.cs:29 | Cutting a name at its first space gives a first part without spaces that rebuilds the name; no cut exists only when the name has no space |
| Students.FullNameRoundTrip | Models/Student.cs:29 | A full name splits back into exactly its first and last name whenever the first name contains no space |
| Students.FullNameAmbiguous | Models/Student.cs:29 | With a space inside the first name, two different name pairs give the same full name |
| Students.Initials | Models/Student.cs:32-49 | At most two characters. A non-blank first name gives the first initial, the upper-case of its first non-blank character. A non-blank last name adds (or, with a blank first name, is) the second. Both names blank: the upper-case of the untrimmed first roll-number character if the roll number is not blank, else empty |
| Students.RollFallbackIsUntrimmed | Models/Student.cs:43-46 | With blank names, a roll number starting with a space gives the initial " " |
| ScanBuffer.Init | Services/BarcodeService.cs:15-18 | A new service is not listening, has an empty buffer, starts its clock at the creation time, and satisfies the session invariant |
| ScanBuffer.StartListening | Services/BarcodeService.cs:28-33 | Afterwards the session is listening; the buffer and last key time are unchanged; a listening session is returned as it is; the invariant is kept |
| ScanBuffer.StartIdempotent | Services/BarcodeService.cs:28-33 | Starting twice is the same as starting once |
| ScanBuffer.StopListening | Services/BarcodeService.cs:35-41 | Afterwards the session is stopped. A listening session loses its buffer. A stopped session is returned as it is. The last key time is never touched, and the invariant is kept |
| ScanBuffer.StopIdempotent | Services/BarcodeService.cs:35-41 | Stopping twice is the same as stopping once |
| ScanBuffer.ProcessKeyInput | Services/BarcodeService.cs:43-71 | A stopped session is left unchanged and emits nothing. Otherwise the session stays listening and its last key time becomes `now`, whether or not the key is mapped. A terminator emits the carried buffer exactly when it is non-empty and leaves the buffer empty. Any other key emits nothing and appends its mapped character, if any, to the carried buffer. The invariant is kept, and anything emitted is non-empty and drawn from the alphabet |
| ScanBuffer.PressAfterStopIsInert | Services/BarcodeService.cs:35-45 | A key press right after a stop changes nothing and emits nothing |
| ScanBuffer.Stale | Services/BarcodeService.cs:50 | A key is stale when it arrives strictly more than the timeout (100 ms) after the last processed key |
| ScanBuffer.TimeoutBoundary | Services/BarcodeService.cs:50-53 | The timeout comparison is strict. A key exactly 100 ms (1,000,000 ticks) after the last one keeps the buffer, so an Enter then emits it. One tick later the buffer is discarded, so the Enter emits nothing |
| ScanBuffer.Run | Services/BarcodeService.cs:15-71 | Over any sequence of start, stop and key calls from a valid session: every reached session is valid ("not listening implies empty buffer", alphabet-only buffer), and every emitted barcode is non-empty and drawn from the alphabet |
| ScanBuffer.StoppedRunIsInert | Services/BarcodeService.cs:43-45 | On a stopped session, any sequence of key presses changes nothing and emits nothing |
| ScanTrace.Feed | Services/BarcodeService.cs:43-71 | Feeding a key stream gives one emission slot per event, keeps the listening flag, and leaves the clock at the last event's time; a stopped session ignores the whole stream |
| ScanTrace.LastFresh | Services/BarcodeService.cs:49-66 | Finds the last reset position (a gap over the timeout, or the event after a terminator) at or before a given position, or reports that there is none |
| ScanTrace.FeedBuffer | Services/BarcodeService.cs:49-70 | After any key stream, a listening session's buffer is exactly the mapped characters typed since the last reset. With no reset, the earlier buffer comes first |
| ScanTrace.FeedEmits | Services/BarcodeService.cs:55-70 | At every event, a terminator emits the mapped characters typed since the last reset when there are any. Every other event emits nothing |
| ScanTrace.ScanBurst | Services/BarcodeService.cs:49-70 | A burst of keys no further apart than the timeout and ended by one terminator emits once, at the terminator: the prior buffer and then the burst's mapped characters, unless that is empty. The buffer is left empty |
| ScanTrace.ScenarioWholeScan | Services/BarcodeService.cs:28-70 | Start, then C, S, 0, 0, 1 and Enter 10 ms apart: nothing is emitted before the Enter, which emits exactly "CS001" and leaves the buffer empty |
| ScanTrace.ScenarioPauseDiscards | Services/BarcodeService.cs:49-70 | C, S, a 200 ms pause, then 0, 0, 1 and Enter: the pause discards "CS" and the Enter emits exactly "001" |
| ScanTrace.ScenarioStrayEnter | Services/BarcodeService.cs:56-66 | Enter on an empty buffer, at any time, emits nothing and leaves the session listening with an empty buffer and its clock at that time |

## Left out

- Logging calls (`_logger`) are dropped.
- The `BarcodeScanned` event is modelled as the value returned by the step. Subscriber lists, and a subscriber that throws, are not modelled. The buffer is cleared before the event fires in the source, as in the model.
- `DateTime.Now` becomes an explicit integer argument in ticks. Any integer is allowed, so a clock that jumps backwards gives a negative gap, and the buffer is kept, as in the source.
- Text.ToUpper: upper-cases ASCII letters only, while the source's invariant-culture upper-casing also maps non-ASCII letters.
- Text.IsWhiteSpace and Text.Trim: only ASCII white space (tab through carriage return, and space) counts. The source also treats U+0085 (next line), U+00A0 (no-break space) and the other Unicode space, line and paragraph separators as white space.
- Students.Initials: a character is a Unicode scalar value, while the source indexes UTF-16 code units. For a name or roll number that begins outside the Basic Multilingual Plane, the source takes a lone high surrogate as the initial and the model takes the whole character. The two-initial bound likewise counts scalar values, not code units.
- Text.IsBlank: does not model `null`. The record's properties default to empty strings and are treated as never null.
- The student record's other fields (email, course, department, year, phone, enrollment date, status, photo path) are plain data with no logic, so they are not modelled.
- Services/DatabaseService.cs is left out because it is SQLite I/O, SQL text and date formatting.
- ViewModels/MainWindowViewModel.cs is left out because it is UI state and asynchronous lookups.
- The value converters are left out because they are WPF binding and bitmap loading.
- App.xaml.cs is left out because it is dependency-injection wiring.
- MainWindow.xaml.cs is left out because it only forwards key events.
