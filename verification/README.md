# nframe in Dafny

This project models the core of nframe. nframe is a small networked key/value store. A client sends
one JSON request per TCP connection, using a chunked framing protocol. The server keeps a mapping in
memory and persists it to a JSON data file. Administrative access to that file is guarded by a
PID-file lock. The model covers three sequential pieces:

- **Chunked framing** (`Framing`, `Server`, `Client`, `Connection`). A phase sends the header
  `{"sections": n}` with `n = ceil(L/1024)`. The receiver answers with the two bytes `ok`. Then
  `n` slices of at most 1024 bytes follow. The receiver concatenates exactly `n` reads and parses
  the result. One connection is two phases: the request, then the response.
- **PID-file lock** (`PidLock`). This covers `acquire`, `check_lock`, `release`,
  `force_release` and the bounded retry loop of `__enter__`. The lock file is an
  `Option<string>`. The process id is a parameter.
- **JSON store** (`Store`, `Modification`). This covers `_load` and `_save`, the `autosave`
  wrapper, and `add_data`, `remove_data` and `import_data` on the in-memory data. It also covers
  `JSONModification` used as a context manager.

Modelling choices:

- The interpreter is Python 2.7, the one the file handling works under (nframe_server.py:20-27 selects
  the branch). The lock token is read as bytes, and a line ends only at `\n`. A first line holding a
  non-ASCII byte makes the `.encode('utf-8')` in `check_lock` raise UnicodeDecodeError. The socket and
  JSON code behave the same under Python 2.7 and Python 3 on the ASCII text it exchanges. Under
  Python 3, `_save` cannot succeed; see "## Findings".
- `json.dumps`/`json.loads` form a parameter, `Codec`. Its law, `Lawful`, says that loading a dump
  returns the value and that empty text is not JSON. The law appears as a precondition wherever a
  property depends on it. `dumps` yields ASCII text, as the default `ensure_ascii` does. So
  encoding is one byte per character.
- The connection is ideal and in order. Each direction is a queue of sent byte strings.
  `recv(max)` returns at most `max` bytes of the oldest pending send and leaves the rest pending.
  An empty queue reads as end of stream (`b""`).
- Exceptions are `Result` errors. Python exceptions do not undo side effects, so store operations
  return the state reached together with the outcome (`Out<T>`).
- The in-memory `data` is any JSON value, not just an object. `handle` assigns the whole decoded
  request to it.

What the code does, in places where a reader might expect otherwise:

- `handle` has no command dispatch. It stores the decoded request envelope as `data` and echoes
  it. So `get_data()` returns `{"command": "get data", "data": null}` and overwrites the store
  (`Connection.GetDataEchoes`). The assertions at test/test_functional.py:65 and :75 expect the
  stored mapping instead.
- `Lock.__enter__` retries on every `LockError`, including a corrupt token
  (`PidLock.EnterRetriesCorrupt`). An unreadable token raises UnicodeDecodeError, which is not
  retried (`PidLock.EnterStopsOnUnreadable`).
- `JSONModification.__enter__` uses its timeout only in the `Lock` constructor's assert, which
  rejects a negative value. It calls `acquire()` once and never retries
  (`Modification.OpenIgnoresTimeout`).
- `force_release` returns nothing. It does not report whether a file was removed.
- Only the client checks the acknowledgement. The server reads two bytes and ignores them
  (`Server.AckIgnored`).

## Model

| member | source | states |
|---|---|---|
| Ascii.DecodeAscii | nframe_server.py:230 | decoding succeeds exactly on ASCII bytes, and the text it returns encodes back to exactly those bytes |
| Ascii.DecodeConcat | nframe_server.py:233-235 | decoding each chunk and concatenating equals decoding the concatenated bytes; one fails exactly when the other does |
| Ascii.ToBytesInjective | nframe_server.py:242 | two ASCII texts with the same UTF-8 encoding are equal |
| Decimal.ParseShow | nframe_server.py:107-109 | `int()` of `str(n)` is `n` for every non-negative `n` |
| Decimal.ParseShowNegative | nframe_server.py:108-111 | a negative number written out is read back as that negative number, which the `>= 0` check then rejects |
| Decimal.ParseInt | nframe_server.py:107-109 | `int()` accepts exactly a numeral surrounded by whitespace: digits, or a sign, optional whitespace and then digits; a negative result comes from a leading `-` |
| Decimal.ParseSignedDigits | nframe_server.py:107-109 | a sign, any whitespace and then digits read as the signed value of the digits |
| Decimal.ParsedAlphabet | nframe_server.py:107-109 | text `int()` accepts holds only whitespace, digits and signs |
| Decimal.ParsePadded | nframe_server.py:107-109 | surrounding whitespace does not change what `int()` reads |
| PidLock.FirstLine | nframe_server.py:106-107 | `readline` on a file read as bytes keeps a prefix of the text with no `\n` in it, stopping at the first `\n`; a `\r` is kept |
| PidLock.StoredPidText | nframe_server.py:80-81 | the token `acquire` writes, read back by `check_lock`, names the writing pid |
| PidLock.StoredPidReadable | nframe_server.py:107-109 | a token whose first line names a pid can be encoded, so it never raises UnicodeDecodeError |
| PidLock.NewLock | nframe_server.py:42-49 | construction succeeds exactly when the timeout is non-negative, otherwise AssertionError |
| PidLock.CheckLock | nframe_server.py:102-116 | passes exactly when the token names this pid and (releasing or not safe); a first line with a non-ASCII byte raises UnicodeDecodeError; otherwise an unparsable or negative pid raises Corrupt, another pid raises HeldBy that pid, and every failure is a LockError |
| PidLock.Acquire | nframe_server.py:73-82 | an absent token is created as `"<pid>\n"`; a present token is never rewritten, and acquiring succeeds exactly when it names this pid outside safe mode; success leaves a token naming this pid; failures are LockErrors, or UnicodeDecodeError on an unreadable token |
| PidLock.Release | nframe_server.py:84-100 | a token naming this pid is deleted; a foreign or corrupt token raises LockError and stays; an unreadable token raises UnicodeDecodeError and stays; a missing token raises exactly in safe mode; success leaves no token |
| PidLock.ForceRelease | nframe_server.py:118-125 | the token is absent afterwards whatever it held, and nothing is raised |
| PidLock.Enter | nframe_server.py:51-63 | at most `timeout+1` attempts (none for a negative budget); success leaves a token naming this pid, with the budget reduced by the failed attempts; a LockError on every attempt ends in LockError after exactly `timeout+1` attempts with the budget at -1; the only other failure is a UnicodeDecodeError from an unreadable token, which escapes the loop |
| PidLock.Retry | nframe_server.py:54-62 | for any attempt: at most `timeout+1` attempts (none for a negative budget); a result other than the final LockError is never a LockError and comes with the budget reduced by the failed attempts; an exhausted budget raises LockError after exactly `timeout+1` attempts with the budget at -1 |
| PidLock.RetryFirst | nframe_server.py:54-57 | an attempt that succeeds or raises anything but LockError ends the loop after one attempt with its own result |
| PidLock.RetryAgain | nframe_server.py:58-60 | after a LockError the loop spends one unit of budget and retries on the token left during the sleep |
| PidLock.RetryOutcome | nframe_server.py:54-62 | around `acquire`, success leaves a token naming this pid, and the only other exception escaping the loop is the UnicodeDecodeError of an unreadable token |
| PidLock.EnterAlone | nframe_server.py:55-63 | with no other process acting, the loop succeeds exactly when one `acquire` would, in one attempt; a non-LockError escapes after one attempt; after a LockError it uses all `timeout+1` attempts and raises LockError with the token unchanged |
| PidLock.EnterForeignTimesOut | nframe_server.py:55-63 | a token held by another pid makes the loop fail with LockError after `timeout+1` attempts, leaving the token |
| PidLock.EnterRetriesCorrupt | nframe_server.py:55-61 | for every readable corrupt token and every budget of at least 1, the loop retries, and succeeds on the second attempt once the token is removed while it sleeps |
| PidLock.EnterStopsOnUnreadable | nframe_server.py:55-63 | an unreadable token's UnicodeDecodeError escapes the first attempt, whatever the budget and whatever other processes do |
| PidLock.SafeReentryRefused | test/test_lock.py:25-28 | in safe mode, a second acquisition by the holder raises LockError(Reentrant) |
| PidLock.SpacedSignNamesPid | nframe_server.py:106-109 | a token whose first line is `+`, whitespace other than a newline, and then the pid names that pid |
| PidLock.SpacedSignOwned | nframe_server.py:76-77 | outside safe mode `acquire` takes such a token as its own, succeeds and leaves it unchanged |
| PidLock.ReentryAllowed | nframe_server.py:115-116 | outside safe mode, the holder may acquire again, and nothing changes |
| PidLock.EmptyTokenCorrupt | test/test_lock.py:30-34 | an empty token file makes `acquire` raise LockError(Corrupt) and stay |
| PidLock.AcquireRelease | nframe_server.py:73-100 | acquiring on an absent token and then releasing leaves no token, without error |
| PidLock.ForceReleaseFrees | nframe_server.py:118-125 | after a forced release, any process acquires the lock |
| Framing.Recv | nframe_server.py:230 | a read returns at most `max` bytes; those bytes and the remaining queue together are exactly the bytes pending before |
| Framing.Sections | nframe_server.py:243 | the section count is `ceil(L/1024)`: `1024*n >= L` and `1024*n < L + 1024` |
| Framing.Slice | nframe_server.py:248 | Python's clamped slice: `b[lo..hi]` inside the bounds, the tail past the end, empty beyond it |
| Framing.Split | nframe_server.py:242-248 | `ceil(L/1024)` sections, each the slice `[1024*i, 1024*(i+1))`; none is empty; all but the last hold 1024 bytes; ASCII stays ASCII; their concatenation is the payload |
| Framing.SendHeader | nframe_server.py:242-245 | the header is one ASCII send queued after everything sent before, and it decodes and parses to `{"sections": n}` for the payload's section count |
| Framing.SectionsOf | nframe_server.py:234 | the loop bound is the header's integer `sections`; it fails exactly when the header is not an object with an integer or bool `sections` |
| Framing.ReadHeader | nframe_server.py:230-232 | a successful header read acknowledges by appending `ok` to the outgoing queue and consumes at most 1024 bytes |
| Framing.ReadChunks | nframe_server.py:233-235 | the text read is ASCII and encodes exactly the bytes taken off the front of the stream, at most 1024 per iteration; the only failure is a decode error |
| Framing.ReadBody | nframe_server.py:234-236 | a header without a usable `sections` raises before anything is read |
| Framing.HeaderRoundTrip | nframe_server.py:244-245 | a header that fits one read is parsed back as `{"sections": n}` and yields `n` |
| Framing.ReadChunksWhole | nframe_server.py:233-235 | reading `k` sections of at most 1024 ASCII bytes consumes exactly those sections, and the text encodes their concatenation |
| Framing.BodyRoundTrip | nframe_server.py:247-248 | reading the announced sections of a sent payload returns the original value and leaves what follows |
| Framing.PhaseRoundTrip | nframe_server.py:225-248 | one phase (header, ack, sections) delivers exactly the value sent, for every payload length |
| Framing.SectionBoundaries | nframe_server.py:243-248 | `L=0` gives no sections, `L=1024` one full section, `L=1025` a full section and a one-byte section |
| Store.DataOf | nframe_server.py:181-183 | a parsed document yields its `data` exactly when it is an object with both `version` and `data` |
| Store.UpgradePath | nframe_server.py:186-193 | the document comes back unchanged whatever its version |
| Store.Load | nframe_server.py:166-183 | no data file leaves everything untouched; a loadable file replaces only the in-memory data; unparsable text is moved to the backups, the file removed, and ServerError raised; a parsed document without `version` or `data` raises that lookup's error and changes nothing; the lock token is never touched |
| Store.Save | nframe_server.py:157-164 | the data file is replaced by the versioned document, and loading it yields the in-memory data; nothing else changes |
| Store.SavePython3 | nframe_server.py:157-164 | under Python 3 `_save` raises TypeError and leaves the data file empty |
| Store.Python3SaveLosesData | nframe_server.py:157-183 | under Python 3, the load after a save finds no JSON, moves the file aside and raises ServerError, whatever was saved |
| Store.SaveLoad | nframe_server.py:157-183 | a load right after a save restores exactly the saved data |
| Store.Autosave | nframe_server.py:195-206 | a failing load skips the body; a raising body skips the save and leaves the files as they were; otherwise the body's data is saved; the lock token is never touched |
| Store.Update | nframe_server.py:296 | right-biased merge: keys are the union, new values win, other keys keep their values; a non-dict raises AttributeError |
| Store.DeleteKeys | nframe_server.py:304-305 | succeeds exactly when there are no keys, or the data is a dict holding each listed key once; then exactly those keys are removed; otherwise KeyError on a dict, TypeError on anything else |
| Store.ImportBody | nframe_server.py:286-288 | succeeds exactly when the data is a dict and the import file parses with an object `data`, and then it is the same merge as `update` |
| Store.AddData | nframe_server.py:290-296 | after a successful load, the loaded mapping merged with `kw` is kept and saved; a non-dict raises AttributeError and nothing is saved; a failing load is the result |
| Store.RemoveData | nframe_server.py:298-305 | after a successful load, it succeeds exactly when every key is present once (or none is given), and then the mapping minus those keys is saved; otherwise KeyError or TypeError with the files unchanged |
| Store.ImportData | nframe_server.py:280-288 | after a successful load, it succeeds exactly when the data is a dict and the import file parses with an object `data`, and then the merge is saved; a missing import file raises IOError; a failure leaves the files unchanged |
| Store.AddDataMerges | nframe_server.py:290-296 | `add_data(kw)` saves the previous on-disk data merged with `kw`, under the current version |
| Store.RemoveDataDurable | nframe_server.py:298-305 | present, distinct keys are removed durably; an absent key raises KeyError and leaves the files unchanged |
| Store.ImportIsAddData | nframe_server.py:280-288 | importing a file in the saved format has the same effect as `add_data` with its data |
| Modification.Open | nframe_server.py:138-147 | a negative timeout raises AssertionError; a refused single `acquire` raises its exception and changes nothing; success holds the token and leaves the data file holding the in-memory data |
| Modification.Close | nframe_server.py:149-155 | a failing load skips the release; otherwise the file holds the loaded data, and the call succeeds exactly when the release does, which leaves no token |
| Modification.OpenIgnoresTimeout | nframe_server.py:143-144 | any two valid timeouts give the same files, the same data and the same outcome |
| Modification.OpenUnlocked | nframe_server.py:138-147 | entering an unlocked store writes this process's token, then loads and saves |
| Modification.CloseOwned | nframe_server.py:149-155 | leaving with this process's token saves the loaded data and removes the token, without error |
| Modification.AddDataSession | test/test_data.py:46-54 | enter, `add_data(kw)`, exit on an unlocked store leaves no token and the previous data merged with `kw` on disk |
| Server.Boot | nframe_server.py:215-222 | start-up fails exactly when an existing data file does not load; afterwards the file holds the in-memory data, which is the stored data, or `{}` when there was none |
| Server.SendBody | nframe_server.py:246-248 | every section is sent whatever the acknowledgement was, after consuming at most two bytes |
| Server.AckIgnored | nframe_server.py:246 | two different acknowledgements lead to the same sections being sent |
| Client.SendBody | nframe_client.py:47-50 | the sections are sent exactly when the two bytes read are `ok`; otherwise the client raises and sends nothing |
| Client.ClosedPeerRejected | nframe_client.py:47-48 | end of stream in place of the ack makes the client raise |
| Connection.Exchange | nframe_server.py:250-261 | a connection never touches the lock token |
| Connection.ExchangeEchoes | nframe_server.py:250-261 | the client receives exactly the request it sent, and the server's data file then holds that request as its data, replacing what was there |
| Connection.BootFailureRefused | nframe_client.py:47-48 | a data file that does not load at server start-up reaches the client as a refused ack |
| Connection.Communicate | nframe_client.py:58-67 | a failed connect returns the string "Error while communicating" and touches nothing; otherwise one exchange carries the envelope |
| Connection.Message | nframe_client.py:69-74 | a failed connect returns "Error while communicating" and touches nothing; otherwise one exchange carries `{"command": "add data", "data": d}`; the lock token is never touched |
| Connection.GetData | nframe_client.py:76-77 | a failed connect returns "Error while communicating"; otherwise one exchange carries `{"command": "get data", "data": null}`; the lock token is never touched |
| Connection.MessageEchoes | nframe_client.py:69-74 | `message(d)` returns `{"command": "add data", "data": d}`, and the store's data becomes that envelope |
| Connection.GetDataEchoes | nframe_client.py:76-77 | `get_data()` returns its own envelope, not the stored mapping, and overwrites the store with it |
| Connection.ConnectFailure | nframe_client.py:58-67 | with a failed connect, `message` and `get_data` both return "Error while communicating" and leave the store unchanged |

## Left out

- Sockets, `TCPServer`, `serve_forever` and threads are replaced by an ideal in-order queue per direction. Partial `send`s and short reads of a whole send are not modelled. An empty queue reads as end of stream rather than blocking.
- The header is assumed to arrive in one `recv(1024)` (`HeaderFits`), as the code assumes.
- Concurrency is left out: the lost-update race between concurrent handlers, and the race between the existence check and the creation of the lock file.
- `sleep`, the SIGTERM handler (`cleanup_on_term`), `chmod` permission bits and `os.getpid` are OS effects. The pid is a parameter. Changes other processes make to the token while the retry loop sleeps are an input sequence.
- Printing to stdout in `release` and `force_release` is left out.
- `json` is an abstract codec with a stated law. Floats, NaN and dumps failures are not modelled. JSON numbers are integers.
- Ascii.DecodeAscii: decodes ASCII only; any byte of 128 or more is a decode error. Real UTF-8 input from a foreign peer would decode, but the programs only ever send ASCII.
- Client.SendBody: compares the raw acknowledgement bytes with `ok`. An acknowledgement that is not valid UTF-8 therefore raises ProtocolError rather than UnicodeDecodeError.
- Framing.Sections: computed exactly. The floating-point `ceil(L / 1024.0)` could round differently only for payloads over 2^53 bytes.
- Store.UpgradePath: the identity, as the placeholder hook is. The `LooseVersion` comparison before it is not modelled, nor how it fails. A falsy version, such as an empty string, leaves `LooseVersion` without a `version` attribute, so the comparison raises AttributeError. Any other non-string version raises TypeError in the constructor.
- Store.DataOf: inherits that gap. A document whose `version` is empty or not a string yields its `data` here, while the code raises at the comparison.
- I/O errors are left out: `_save` failing with `ServerError("Data could not be saved")`, and a data file that exists but cannot be opened.
- The timestamped name of the backup file is not modelled. Backups are kept as a list of contents.
- Store.ImportBody: `dict.update` also accepts a list of pairs. The model treats any non-object `data` in an import file as a TypeError.
- `export_data` and the command-line `main` are file-writing and argument-parsing glue.
- The Python 3 branches are not the modelled runtime. Python 3 differs in file handling: `_save` raises ("## Findings"), and a text-mode `readline` would also end a line at `\r`.
- Store.Save: follows Python 2.7, where the save succeeds. Under Python 3 it raises TypeError and empties the data file; `Store.SavePython3` models that.

## Findings

| source | as written | input that shows it | evidently intended | confidence | as-written member | corrected member |
|---|---|---|---|---|---|---|
| nframe_server.py:161-164 | under Python 3 the data file is opened for binary writing, which truncates it, and `json.dump` then writes text to it and raises TypeError, which is not among the exceptions `_save` turns into ServerError | any save under Python 3, for example the one in `Server.__init__` on a fresh store | the document is written and a later load reads the data back, as under Python 2.7 | high (not executed) | Store.Python3SaveLosesData | Store.SaveLoad |
