/** The three file tools of the agent, `list_files_in_dir`, `read_file` and
    `edit_file`, as functions of the file system. Each one turns every
    failure into a returned text instead of raising. `Edit` is the
    specification that the agent's `EditFile` method implements. */
module FileTools {
  import opened Text
  import opened Os

  /** What a tool returns: the `{'files': [...]}` dictionary of a listing
      (its names as a set, since the order `os.listdir` reports is not
      modelled), or a text. */
  datatype ToolResult = Files(names: set<string>) | Str(text: string)

  /** The `OSError`s `os.listdir` can raise here. */
  datatype OsError = NotFound | NotADirectory | PermissionDenied

  /** `str(e)` of such an error raised for `path`. */
  function OsErrorText(e: OsError, path: string): string {
    match e
    case NotFound => "[Errno 2] No such file or directory: '" + path + "'"
    case NotADirectory => "[Errno 20] Not a directory: '" + path + "'"
    case PermissionDenied => "[Errno 13] Permission denied: '" + path + "'"
  }

  const ListErrorPrefix := "Error al listar archivos: "

  function ReadErrorMessage(path: string): string {
    "Error al leer archivo: " + path
  }

  /** The names `os.listdir(d)` reports: the base names of the files and
      directories whose parent is `d` (`.` also holds the bare names). */
  function Entries(fs: FileSystem, d: string): (names: set<string>)
    ensures forall n :: n in names ==> n != "" && '/' !in n
  {
    set q | q in fs.files.Keys + fs.dirs && ChildOf(q, d) :: BaseName(q)
  }

  /** `q` is an entry of the directory `d`. */
  predicate ChildOf(q: string, d: string) {
    q != d && (DirName(q) == d || (d == "." && DirName(q) == "")) && BaseName(q) != ""
  }

  /** The tool `list_files_in_dir`: the entries of an existing, accessible
      directory, otherwise an error text naming the cause. */
  function ListFilesInDir(fs: FileSystem, d: string): (r: ToolResult)
    ensures r.Files? <==> d in fs.dirs && d !in fs.denied && d !in fs.files
    ensures r.Files? ==> forall n :: n in r.names ==> n != "" && '/' !in n
    ensures r.Str? ==> StartsWith(r.text, ListErrorPrefix)
  {
    if !Exists(fs, d) then Str(ListErrorPrefix + OsErrorText(NotFound, d))
    else if d in fs.files then Str(ListErrorPrefix + OsErrorText(NotADirectory, d))
    else if d in fs.denied then Str(ListErrorPrefix + OsErrorText(PermissionDenied, d))
    else Files(Entries(fs, d))
  }

  /** `path` names a regular file whose text can be read. */
  predicate Readable(fs: FileSystem, path: string) {
    path in fs.files && path !in fs.denied && fs.files[path].Utf8?
  }

  /** The tool `read_file`: the file's whole text as text mode reads it
      (with universal newlines), or the error text "Error al leer archivo:
      {path}" when it cannot be read (missing, a directory, denied, or not
      UTF-8). A text read back never holds '\r', and a stored text without
      '\r' reads back unchanged. */
  function ReadFile(fs: FileSystem, path: string): (r: string)
    ensures Readable(fs, path) ==> r == UniversalNewlines(fs.files[path].text)
    ensures Readable(fs, path) ==> '\r' !in r
    ensures Readable(fs, path) && '\r' !in fs.files[path].text ==> r == fs.files[path].text
    ensures !Readable(fs, path) ==> r == ReadErrorMessage(path)
  {
    if Readable(fs, path) then UniversalNewlines(fs.files[path].text) else ReadErrorMessage(path)
  }

  /** How `edit_file` ended. */
  datatype EditStatus = Edited | Created | Mismatch | Failed

  predicate Succeeded(s: EditStatus) {
    s == Edited || s == Created
  }

  /** The text `edit_file` returns for each ending. */
  function EditMessage(path: string, previousText: string, s: EditStatus): string {
    match s
    case Edited => "Archivo " + path + " editado exitosamente"
    case Created => "Archivo " + path + " creado exitosamente"
    case Mismatch => "El texto " + previousText + " no coincide con el contenido actual del archivo"
    case Failed => "Error al editar archivo: " + path
  }

  datatype EditOutcome = EditOutcome(fs: FileSystem, status: EditStatus)

  /** `edit_file` takes the edit path: the path exists and a non-empty
      `previous_text` was given. */
  predicate TakesEditPath(fs: FileSystem, path: string, previousText: string) {
    Exists(fs, path) && previousText != ""
  }

  /** The text `edit_file` writes, if it gets to write: on the edit path the
      text `read_file` returned with every `previous_text` replaced (which is
      the error text itself when the file could not be read), otherwise
      `new_text`. */
  function Written(fs: FileSystem, path: string, newText: string, previousText: string): string {
    if TakesEditPath(fs, path, previousText)
    then ReplaceAll(ReadFile(fs, path), previousText, newText)
    else newText
  }

  /** The tool `edit_file` on a file system. On the edit path it reads the
      file through `read_file`, refuses when `previous_text` is not in that
      text, and otherwise writes the replacement. Otherwise it creates the
      parent directories and writes `new_text`, reporting "creado" even when
      it overwrites an existing file. Any failing open or mkdir ends in
      `Failed`. */
  function Edit(fs: FileSystem, path: string, newText: string, previousText: string): (r: EditOutcome)
    ensures r.fs.denied == fs.denied && fs.dirs <= r.fs.dirs
    ensures !Succeeded(r.status) ==> r.fs.files == fs.files
    ensures Succeeded(r.status) ==>
              r.fs.files == fs.files[path := Utf8(Written(fs, path, newText, previousText))]
    ensures r.status == Edited ==> TakesEditPath(fs, path, previousText)
    ensures r.status == Created ==> !TakesEditPath(fs, path, previousText)
    ensures r.status == Mismatch <==>
              TakesEditPath(fs, path, previousText) && !Contains(ReadFile(fs, path), previousText)
    ensures r.status == Mismatch ==> r.fs == fs
    ensures TakesEditPath(fs, path, previousText) ==> r.fs.dirs == fs.dirs
    ensures forall x :: x in r.fs.dirs && x !in fs.dirs ==>
              |x| <= |DirName(path)| && x == DirName(path)[..|x|]
    ensures Valid(fs) ==> Valid(r.fs)
  {
    if TakesEditPath(fs, path, previousText) then
      var content := ReadFile(fs, path);
      if !Contains(content, previousText) then EditOutcome(fs, Mismatch)
      else
        var w := Write(fs, path, ReplaceAll(content, previousText, newText));
        EditOutcome(w.fs, if w.ok then Edited else Failed)
    else
      var dir := DirName(path);
      var made := if dir != "" then MakeDirsAddsOnlyPrefixes(fs, dir); MakeDirs(fs, dir) else Change(fs, true);
      if !made.ok then EditOutcome(made.fs, Failed)
      else
        var w := Write(made.fs, path, newText);
        EditOutcome(w.fs, if w.ok then Created else Failed)
  }

  // ---------------------------------------------------------------------
  // Properties of the tools

  /** A `previous_text` that does not occur in the current text leaves the
      file system exactly as it was and reports the mismatch. */
  lemma MismatchLeavesFileAlone(fs: FileSystem, path: string, newText: string, previousText: string)
    requires Exists(fs, path) && previousText != ""
    requires !Contains(ReadFile(fs, path), previousText)
    ensures Edit(fs, path, newText, previousText) == EditOutcome(fs, Mismatch)
  {
  }

  /** A successful edit replaces every occurrence in the text as read (with
      its line endings turned into '\n'): that text is its pieces around
      `previous_text`, taken left to right, none of which contains it, and
      the new content is the same pieces around `new_text`. */
  lemma EditReplacesEveryOccurrence(fs: FileSystem, path: string, newText: string, previousText: string)
    requires Readable(fs, path) && previousText != ""
    requires Contains(UniversalNewlines(fs.files[path].text), previousText)
    requires CanWrite(fs, path)
    ensures var seen := UniversalNewlines(fs.files[path].text);
            var pieces := Split(seen, previousText);
            var r := Edit(fs, path, newText, previousText);
            r.status == Edited &&
            r.fs.files == fs.files[path := Utf8(Join(pieces, newText))] &&
            Join(pieces, previousText) == seen &&
            |pieces| > 1 &&
            (forall k :: 0 <= k < |pieces| ==> !Contains(pieces[k], previousText)) &&
            forall k :: 0 <= k < |pieces| - 1 ==>
              !Contains(pieces[k] + previousText[..|previousText| - 1], previousText)
  {
    var seen := UniversalNewlines(fs.files[path].text);
    var pieces := Split(seen, previousText);
    ReplaceAllIsSplitJoin(seen, previousText, newText);
    SplitJoin(seen, previousText);
    ContainsIffSeveralPieces(seen, previousText);
    forall k | 0 <= k < |pieces| ensures !Contains(pieces[k], previousText) {
      SplitPiecesAvoid(seen, previousText, k);
    }
    forall k | 0 <= k < |pieces| - 1
      ensures !Contains(pieces[k] + previousText[..|previousText| - 1], previousText)
    {
      SplitIsLeftmost(seen, previousText, k);
    }
  }

  /** A missing file, or an empty `previous_text`, makes `edit_file` write
      `new_text` as the whole file after creating its parent directory;
      it reports "creado" (also over an existing file) or fails. */
  lemma CreateOrOverwrite(fs: FileSystem, path: string, newText: string, previousText: string)
    requires !Exists(fs, path) || previousText == ""
    ensures var r := Edit(fs, path, newText, previousText);
            (r.status == Created || r.status == Failed) &&
            (r.status == Created ==>
               r.fs.files == fs.files[path := Utf8(newText)] &&
               (DirName(path) == "" || DirName(path) in r.fs.dirs))
  {
  }

  /** When the parent directory already exists and the path can be opened
      for writing, creation does succeed. */
  lemma CreateSucceeds(fs: FileSystem, path: string, newText: string, previousText: string)
    requires !Exists(fs, path) || previousText == ""
    requires CanWrite(fs, path)
    ensures Edit(fs, path, newText, previousText).status == Created
  {
  }

  /** Round trip: after a successful edit, `read_file` returns the text
      that was written with its line endings turned into '\n', which is
      exactly that text when it holds no '\r'. */
  lemma EditThenRead(fs: FileSystem, path: string, newText: string, previousText: string)
    requires Succeeded(Edit(fs, path, newText, previousText).status)
    ensures var back := ReadFile(Edit(fs, path, newText, previousText).fs, path);
            var w := Written(fs, path, newText, previousText);
            back == UniversalNewlines(w) && ('\r' !in w ==> back == w)
  {
  }

  /** Creating a file whose parent directories are missing succeeds: when
      no proper prefix of the path is a file or refuses access, `edit_file`
      makes the missing directories and reports "creado". */
  lemma CreateInMissingDirs(fs: FileSystem, path: string, newText: string, previousText: string)
    requires !Exists(fs, path) || previousText == ""
    requires path != "" && path[|path| - 1] != '/' && path !in fs.dirs && path !in fs.denied
    requires forall x :: |x| <= |path| && x == path[..|x|] && x != path ==> x !in fs.files && x !in fs.denied
    ensures Edit(fs, path, newText, previousText).status == Created
  {
    var dir := DirName(path);
    if dir != "" {
      forall x | |x| <= |dir| && x == dir[..|x|]
        ensures x !in fs.files && x !in fs.denied
      {
        assert x == path[..|x|];
      }
      MakeDirsSucceeds(fs, dir);
      var made := MakeDirs(fs, dir);
      if path in made.fs.dirs {
        MakeDirsCreatesOnlyPrefixes(fs, dir, path);
      }
      assert CanWrite(made.fs, path);
    }
  }

  /** After a successful edit, listing the file's directory shows its name. */
  lemma EditThenList(fs: FileSystem, path: string, newText: string, previousText: string)
    requires Valid(fs)
    requires Succeeded(Edit(fs, path, newText, previousText).status)
    requires DirName(path) != "" ==> DirName(path) !in fs.denied
    requires DirName(path) == "" ==> "." in fs.dirs && "." !in fs.denied
    ensures var d := if DirName(path) == "" then "." else DirName(path);
            var l := ListFilesInDir(Edit(fs, path, newText, previousText).fs, d);
            l.Files? && BaseName(path) in l.names
  {
  }

  /** Editing is not idempotent: with a file holding exactly `A` without
      '\r', replacing `A` by a `B` whose read-back does not contain it
      succeeds once and then reports a mismatch. When `A` holds a '\r', the
      first call already mismatches, since the text as read has none. */
  lemma EditTwiceMismatches(fs: FileSystem, path: string, a: string, b: string)
    requires a != "" && !Contains(UniversalNewlines(b), a)
    requires path in fs.files && fs.files[path] == Utf8(a) && path !in fs.denied
    requires CanWrite(fs, path)
    ensures var first := Edit(fs, path, b, a);
            if '\r' in a then first == EditOutcome(fs, Mismatch)
            else
              first.status == Edited && first.fs.files[path] == Utf8(b) &&
              Edit(first.fs, path, b, a) == EditOutcome(first.fs, Mismatch)
  {
    if '\r' in a {
      if Contains(UniversalNewlines(a), a) {
        ContainsCarriesChars(UniversalNewlines(a), a, '\r');
      }
    } else {
      ReplaceWhole(a, b);
    }
  }

  /** `read_file` returns its error text rather than raising, and
      `edit_file` takes that text for the file's content: an existing file
      that is not valid UTF-8, edited with `previous_text` equal to that
      error text, is overwritten with just `new_text`, reported as
      "editado". */
  lemma UnreadableFileEditedThroughErrorText(fs: FileSystem, path: string, newText: string)
    requires path in fs.files && fs.files[path] == Undecodable
    requires CanWrite(fs, path)
    ensures var r := Edit(fs, path, newText, ReadErrorMessage(path));
            r.status == Edited && r.fs.files[path] == Utf8(newText)
  {
    var m := ReadErrorMessage(path);
    assert StartsWith(m, m);
    ReplaceWhole(m, newText);
  }

  /** Listing yields the set of names, whatever order the entries have: a
      directory holding just the files `a` and `b` lists exactly `{a, b}`. */
  lemma ListTwoFiles(fs: FileSystem, d: string, a: string, b: string)
    requires d != "" && d[|d| - 1] != '/'
    requires a != "" && b != ""
    requires forall j :: 0 <= j < |a| ==> a[j] != '/'
    requires forall j :: 0 <= j < |b| ==> b[j] != '/'
    requires fs.dirs == {d} && d !in fs.denied
    requires fs.files.Keys == {d + "/" + a, d + "/" + b}
    ensures ListFilesInDir(fs, d) == Files({a, b})
  {
    ChildOfDir(d, a);
    ChildOfDir(d, b);
    EntriesOfTwo(fs, d, d + "/" + a, d + "/" + b);
  }

  /** `d + "/" + n` is an entry of `d` named `n`. */
  lemma ChildOfDir(d: string, n: string)
    requires d != "" && d[|d| - 1] != '/' && n != ""
    requires forall j :: 0 <= j < |n| ==> n[j] != '/'
    ensures ChildOf(d + "/" + n, d) && BaseName(d + "/" + n) == n
  {
    DirNameOfChild(d, n);
    assert |d + "/" + n| > |d|;
  }

  lemma EntriesOfTwo(fs: FileSystem, d: string, p: string, q: string)
    requires fs.dirs == {d} && fs.files.Keys == {p, q}
    requires ChildOf(p, d) && ChildOf(q, d)
    ensures Entries(fs, d) == {BaseName(p), BaseName(q)}
  {
    var e := Entries(fs, d);
    var two := {BaseName(p), BaseName(q)};
    assert two <= e by {
      EntryOf(fs, d, p);
      EntryOf(fs, d, q);
    }
    assert e <= two by {
      EntriesWithin(fs, d, p, q);
    }
  }

  /** Only the children of `d` are listed. */
  lemma EntriesWithin(fs: FileSystem, d: string, p: string, q: string)
    requires fs.dirs == {d} && fs.files.Keys == {p, q}
    ensures forall n :: n in Entries(fs, d) ==> n == BaseName(p) || n == BaseName(q)
  {
    forall n | n in Entries(fs, d) ensures n == BaseName(p) || n == BaseName(q) {
      var x :| x in fs.files.Keys + fs.dirs && ChildOf(x, d) && BaseName(x) == n;
      assert x in fs.files.Keys;
    }
  }

  /** A child of `d` is listed under its base name. */
  lemma EntryOf(fs: FileSystem, d: string, p: string)
    requires p in fs.files && ChildOf(p, d)
    ensures BaseName(p) in Entries(fs, d)
  {
    assert p in fs.files.Keys + fs.dirs;
  }

  /** A `previous_text` of "Error" is always found in the error text of an
      unreadable path. */
  lemma ErrorTextContainsError(path: string)
    ensures Contains(ReadErrorMessage(path), "Error")
  {
  }
}
