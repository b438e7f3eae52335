# File-tool agent: a Dafny model

This project models the file-management agent of `ai-list-read-edit-files-agent/agent.py`.
The agent keeps a conversation history, declares three tools to a language model, and runs
whatever tool the model asks for:

- `list_files_in_dir` lists a directory.
- `read_file` returns a file's text.
- `edit_file` replaces every occurrence of `previous_text` by `new_text`, or creates or
  overwrites the file with `new_text`.

`process_response` takes one model response. It appends all of the response's output items to
the history, answers the first function call among them, and says whether it called a tool.

The model has four modules:

- `Text` (text.dfy): Python's `in` (`Contains`) and `str.replace` (`ReplaceAll`). Their
  partners are `str.split` (`Split`) and `str.join` (`Join`), with the lemmas that tie them
  together. It also holds the universal-newline translation of text-mode reading
  (`UniversalNewlines`).
- `Os` (os.dfy): the file system as a value. It records which paths are files and what they
  hold (UTF-8 text or undecodable bytes), which paths are directories, and which paths refuse
  every access. It also models `os.path.dirname`, `os.path.basename`,
  `os.makedirs(..., exist_ok=True)` and `open(path, 'w').write(...)`.
- `FileTools` (file_tools.dfy): the three tools as functions of the file system. `Edit` is the
  specification of `edit_file`.
- `Agent` (agent.dfy): the message and declaration datatypes, the declarations themselves, the
  Python signatures behind them, the dispatch of one call (`Invoke`), and the class `Agent`.
  The class holds the fields `messages`, `tools` and `fs`. Its method `EditFile` changes `fs`
  in place. Its method `ProcessResponse` appends to `messages` in place, in a loop that returns
  at the first function call, which `CallFunction` runs.

Behaviour kept as the code has it:

- `read_file` returns its error text instead of raising. `edit_file` then searches and
  replaces inside that error text as if it were the file's content. This can overwrite an
  undecodable file (`UnreadableFileEditedThroughErrorText`).
- The declaration of `edit_file` does not require `previous_text`, but the Python method gives
  it no default. The call the declaration invites for a new file therefore raises `TypeError`,
  and nothing catches it. The model has this as the `Propagated(BadArguments)` outcome
  (`EditWithoutPreviousTextRaises`, `SchemaVersusSignature`).
- `edit_file` reports "creado" whenever it takes the create branch. That includes overwriting
  an existing file when `previous_text` is empty.
- Only the first function call of a response gets an answer.
- Malformed JSON arguments and binding errors escape `process_response`. By then the output
  items have already been appended to the history.
- `edit_file` replaces every occurrence (`str.replace`), not only the first.
- The history grows by the response's output items plus at most one answer.
- `read_file` opens the file in text mode with the default `newline=None`, so "\r\n" and a
  lone '\r' come back as '\n' (`UniversalNewlines`). `edit_file` searches and replaces in that
  translated text and writes it back, so editing a file also turns its line endings into '\n',
  and a `previous_text` holding '\r' never matches the text of a file that could be read.

## Model

| member | source | states |
|---|---|---|
| `Text.Contains` | ai-list-read-edit-files-agent/agent.py:99 | Python's `p in s`: true whenever `s` starts with `p`, and only when `p` is no longer than `s` (`ContainsIff` gives its full meaning) |
| `Text.ReplaceAll` | ai-list-read-edit-files-agent/agent.py:102 | Python's `s.replace(p, q)` for a non-empty `p`: a replacement as long as `p` keeps the length, and replacing `p` by itself changes nothing (`ReplaceAllIsSplitJoin` and the split lemmas give its full meaning) |
| `Text.ContainsIff` | ai-list-read-edit-files-agent/agent.py:99 | `Contains(s, p)` holds exactly when `p` occurs in `s` at some index (the meaning of Python's `in`) |
| `Text.ReplaceAllIsSplitJoin` | ai-list-read-edit-files-agent/agent.py:102 | `s.replace(p, q)` equals `q.join(s.split(p))` |
| `Text.SplitJoin` | ai-list-read-edit-files-agent/agent.py:102 | joining the pieces of `s.split(p)` with `p` gives back `s`, so the pieces and the replaced occurrences tile the original text |
| `Text.SplitPiecesAvoid` | ai-list-read-edit-files-agent/agent.py:102 | no piece of the split contains `p`: no occurrence lies wholly inside a piece |
| `Text.SplitIsLeftmost` | ai-list-read-edit-files-agent/agent.py:102 | no occurrence of `p` starts inside a piece that a separator follows, so the separators are the leftmost, non-overlapping occurrences, also when `p` overlaps itself |
| `Text.ContainsIffSeveralPieces` | ai-list-read-edit-files-agent/agent.py:99-102 | `p in s` exactly when the split yields more than one piece, so a found `previous_text` is replaced at least once |
| `Text.ReplaceAbsent` | ai-list-read-edit-files-agent/agent.py:99-102 | replacing a text that does not occur leaves the string unchanged |
| `Text.ReplaceWhole` | ai-list-read-edit-files-agent/agent.py:102 | a string equal to `p` becomes exactly `q` |
| `Text.UniversalNewlines` | ai-list-read-edit-files-agent/agent.py:84-85 | text read with universal newlines holds no '\r', is never longer, and equals the stored text when that holds no '\r' |
| `Text.UniversalNewlinesIsReplace` | ai-list-read-edit-files-agent/agent.py:84-85 | the translation is `s.replace('\r\n', '\n').replace('\r', '\n')` |
| `Text.Split` | ai-list-read-edit-files-agent/agent.py:102 | the split has at least one piece |
| `Os.Exists` | ai-list-read-edit-files-agent/agent.py:95 | `os.path.exists(path)`: the path is a file or a directory; on a well-formed file system the empty path never exists |
| `Os.DirName` | ai-list-read-edit-files-agent/agent.py:106 | `os.path.dirname` returns a prefix of the path, empty for a bare name, and strictly shorter unless the path is all slashes |
| `Os.BaseName` | ai-list-read-edit-files-agent/agent.py:74 | `os.path.basename` is a suffix without '/', non-empty when the path does not end in '/' |
| `Os.DirNameOfChild` | ai-list-read-edit-files-agent/agent.py:106 | for `d + "/" + n` with `n` a plain name, the dirname is `d` and the basename is `n` |
| `Os.MakeDirs` | ai-list-read-edit-files-agent/agent.py:107-108 | `os.makedirs(d, exist_ok=True)` for a non-empty `d` (the call is guarded by `if dir_name`) never touches files, only adds directories, yields `d` on success, fails when `d` is a file, and keeps the file system well formed |
| `Os.MakeDirsSucceeds` | ai-list-read-edit-files-agent/agent.py:107-108 | `makedirs(d)` succeeds when no string prefix of `d` is a file or refuses access. This is a sufficient condition only: a file `da` rules out `data/x` although `makedirs` succeeds there |
| `Os.MakeDirsCreatesOnlyPrefixes` | ai-list-read-edit-files-agent/agent.py:107-108 | every directory that `makedirs` creates is a prefix of `d` |
| `Os.Write` | ai-list-read-edit-files-agent/agent.py:112-113 | opening for writing succeeds exactly when the path can be written; the file then holds exactly the text; otherwise nothing changes; well-formedness is kept |
| `FileTools.Entries` | ai-list-read-edit-files-agent/agent.py:74 | what `os.listdir(d)` reports: the base names of the files and directories directly in `d`, each non-empty and free of '/' |
| `FileTools.ListFilesInDir` | ai-list-read-edit-files-agent/agent.py:71-77 | a listing is returned exactly for an existing, accessible directory; its names are non-empty and free of '/'; every failure is a text starting "Error al listar archivos: " |
| `FileTools.ListTwoFiles` | ai-list-read-edit-files-agent/agent.py:74-75 | a directory holding the files `a` and `b` lists exactly `{a, b}`, whatever the order of entries |
| `FileTools.EntriesOfTwo` | ai-list-read-edit-files-agent/agent.py:74 | the entries of a directory with two children are exactly their two base names |
| `FileTools.ReadFile` | ai-list-read-edit-files-agent/agent.py:81-89 | a readable file yields its whole text with "\r\n" and '\r' turned into '\n', so the result holds no '\r' and equals the stored text when that holds none; anything else yields "Error al leer archivo: {path}" |
| `FileTools.Edit` | ai-list-read-edit-files-agent/agent.py:92-120 | `edit_file` keeps the access rights. The edit branch leaves the directories as they are; the create branch only adds `os.path.dirname(path)` and directories above it (prefixes of it). If it does not succeed, no file changes. If it succeeds, only `path` changes, to the written text. "editado" implies the edit branch and "creado" the create branch. The outcome is a mismatch exactly when the edit branch is taken and `previous_text` is not in the text `read_file` returns; a mismatch changes nothing. Well-formedness is kept |
| `FileTools.MismatchLeavesFileAlone` | ai-list-read-edit-files-agent/agent.py:95-100 | an existing path with a non-empty `previous_text` absent from its text gives the mismatch outcome with the file system unchanged |
| `FileTools.EditReplacesEveryOccurrence` | ai-list-read-edit-files-agent/agent.py:96-116 | a successful edit is "editado", and the new content is the pieces of the text as read (line endings turned into '\n') around `previous_text`, rejoined with `new_text`. The pieces rebuild the text as read, there are at least two, none contains `previous_text`, and they are cut at its leftmost non-overlapping occurrences |
| `FileTools.CreateOrOverwrite` | ai-list-read-edit-files-agent/agent.py:104-116 | with a missing path or an empty `previous_text`, the outcome is "creado" or an error. On "creado" the file holds exactly `new_text` and its parent directory exists |
| `FileTools.CreateSucceeds` | ai-list-read-edit-files-agent/agent.py:104-116 | on the create branch, a writable path in an existing directory always gives "creado" |
| `FileTools.CreateInMissingDirs` | ai-list-read-edit-files-agent/agent.py:104-116 | on the create branch, a path none of whose proper string prefixes is a file or refuses access gives "creado", missing parent directories included. This is a sufficient condition only: a file whose name is merely a string prefix of the path (a file `d` for the path `data/x`) also rules the lemma out |
| `FileTools.EditThenRead` | ai-list-read-edit-files-agent/agent.py:84-113 | after a successful edit, `read_file` returns the written text with its line endings turned into '\n', which is exactly the written text when it holds no '\r' |
| `FileTools.EditThenList` | ai-list-read-edit-files-agent/agent.py:71-116 | on a well-formed file system, after a successful edit, listing the file's directory (`.` for a bare name, which must exist) shows its base name, provided that directory does not refuse access |
| `FileTools.EditTwiceMismatches` | ai-list-read-edit-files-agent/agent.py:95-116 | in a writable file holding exactly `A` without '\r', replacing `A` by a `B` whose text as read does not contain `A` succeeds with content `B`, and the same edit then reports a mismatch; when `A` holds '\r', the first call already mismatches. |
| `FileTools.UnreadableFileEditedThroughErrorText` | ai-list-read-edit-files-agent/agent.py:86-102 | an undecodable file, edited with `previous_text` equal to its read-error text, is overwritten with `new_text` and reported "editado" |
| `FileTools.ErrorTextContainsError` | ai-list-read-edit-files-agent/agent.py:87-99 | the read-error text always contains "Error", so a `previous_text` of "Error" passes the mismatch check on every unreadable path |
| `Agent.Registry` | ai-list-read-edit-files-agent/agent.py:12-67 | three declarations with distinct names, each required parameter among the declared properties |
| `Agent.RegistryNamesAndRequirements` | ai-list-read-edit-files-agent/agent.py:12-67 | the declarations are `list_files_in_dir`, `read_file` and `edit_file`, requiring nothing, `path`, and `path` and `new_text` |
| `Agent.SchemaVersusSignature` | ai-list-read-edit-files-agent/agent.py:59-92 | arguments allowed by a declaration always bind for `list_files_in_dir` and `read_file`; for `edit_file` they bind exactly when `previous_text` is present |
| `Agent.EditWithoutPreviousTextRaises` | ai-list-read-edit-files-agent/agent.py:145 | calling `edit_file` with only `path` and `new_text` raises an uncaught `TypeError` |
| `Agent.Invoke` | ai-list-read-edit-files-agent/agent.py:134-147 | a call raises exactly when its arguments do not parse or do not bind to a known tool. Only `edit_file` changes files, and by `Edit`. `list_files_in_dir` answers `ListFilesInDir` of `directory` or "."; `read_file` answers `ReadFile` of `path`. An unknown name is answered with "Función desconocida: {name}" |
| `Agent.FirstCall` | ai-list-read-edit-files-agent/agent.py:131-132 | gives the index of the first function call, with none before it, or the length when there is none. A call exists exactly when the index is within range |
| `Agent.OnlyFirstCallAnswered` | ai-list-read-edit-files-agent/agent.py:131-156 | with two function calls in a response, the one answered is the first |
| `Agent.Agent.constructor` | ai-list-read-edit-files-agent/agent.py:5-9 | a new agent has the three declarations and a history of just the system message |
| `Agent.Agent.EditFile` | ai-list-read-edit-files-agent/agent.py:92-120 | the in-place `edit_file` leaves the file system and returns the text that `Edit` specifies |
| `Agent.Agent.CallFunction` | ai-list-read-edit-files-agent/agent.py:134-147 | running one function call in place raises exactly where `Invoke` throws and leaves the files alone then; otherwise it answers `Invoke`'s result and the files become `Invoke`'s |
| `Agent.Agent.ProcessResponse` | ai-list-read-edit-files-agent/agent.py:124-163 | appends every output item in order and keeps the earlier history and the declarations. With no call: returns false and changes nothing else. If the first call raises: the exception escapes after the items were appended. Otherwise: appends one answer carrying that call's `call_id` and `Invoke`'s result, updates the files, returns true |

## Left out

- `print` output, including the assistant reply that the `message` branch joins with "\n" only to print it.
- `json.loads` and `json.dumps` as byte formats. A call's arguments are given already parsed, as a map of strings or as "malformed". A listing's `{'files': [...]}` is kept as the set of names that `json.dumps` would serialise.
- Content parts of an assistant `message` item are modelled as texts only. A part without a `text` attribute would raise `AttributeError` when the reply is joined for printing, and that exception would escape `process_response` after the output items were appended; the model cannot express such a part.
- Argument values that are not strings (`null`, numbers, nested objects), and JSON arguments that parse to a non-object.
- The order in which `os.listdir` reports entries: a listing is a set.
- Real operating-system error causes. Permissions are one `denied` set of paths where every open, mkdir or listdir fails. A file that is not valid UTF-8 is `Undecodable`.
- Line-ending translation on write: the file system is POSIX, where text mode writes '\n' unchanged.
- A write that fails after the file was truncated (for example, a full disk) is not modelled.
- FileTools.ListFilesInDir: the error text after the "Error al listar archivos: " prefix follows Python's `[Errno N] message: 'path'`, but it does not escape quotes in the path as `repr` would.
- Path normalisation: `..`, repeated separators and `./x` versus `x` are different strings here. The only special case is that `.` lists the bare names.
- The console loop of `ai-file-management-agent/main.py` is not modelled. It reads user input, calls the OpenAI client and repeats `process_response` until it returns false. This is I/O and network plumbing.
- The other sub-projects are not modelled: the ADK agent definitions, Streamlit front ends, Vertex AI deployment and test scripts, and the FastAPI server. They are configuration over vendor SDKs.
- Concurrency: the agent is single-threaded and nothing shares its history.
