/**
 * The persisted store of `JSONModification`, `autosave` and `Data`: the
 * files on disk and the in-memory `data`, with load, save and the
 * autosaved mutations.
 */
module Store {
  import opened Base
  import opened JsonCodec

  /** `__version__` of the server module, written into every saved document. */
  const Version: string := "0.8-alpha"

  /** The files involved: the lock token, the data file, and the corrupt data files moved aside. */
  datatype Disk = Disk(lockFile: Option<string>, dataFile: Option<string>, backups: seq<string>)

  /**
   * The files and the in-memory data, which is any JSON value: `handle`
   * stores whatever the request decoded to.
   */
  datatype Store = Store(disk: Disk, mem: Json)

  /** The state after an operation (exceptions do not undo effects) and its result. */
  datatype Out<T> = Out(st: Store, res: Result<T>)

  /** What the body of an autosaved operation leaves in memory, and what it raised, if anything. */
  datatype Effect = Effect(mem: Json, raised: Option<Error>)

  /** The document `_save` writes: an object holding the data and the version string. */
  function FileDoc(data: Json): Json
  {
    Obj(map["data" := data, "version" := Str(Version)])
  }

  /**
   * `_upgrade_path`: a placeholder for future migrations. Whatever version the
   * document carries, it comes back unchanged.
   */
  function UpgradePath(doc: Json): (r: Json)
    ensures r == doc
  {
    doc
  }

  /**
   * The part of `_load` after parsing: the version field is read (and
   * an older version sent through the upgrade hook), then `file_data['data']`.
   */
  function DataOf(doc: Json): (r: Result<Json>)
    ensures doc.Obj? && "version" in doc.fields && "data" in doc.fields ==> r == Ok(doc.fields["data"])
    ensures r.Ok? ==> doc.Obj? && "version" in doc.fields && "data" in doc.fields
  {
    var version :- Index(doc, "version");
    var current := if version != Str(Version) then UpgradePath(doc) else doc;
    Index(current, "data")
  }

  /** The data a load would install from the data file, when the file exists and loads. */
  function Persisted(c: Codec, disk: Disk): Option<Json>
  {
    match disk.dataFile
    case None => None
    case Some(text) =>
      match c.loads(text)
      case None => None
      case Some(doc) => if DataOf(doc).Ok? then Some(DataOf(doc).value) else None
  }

  /**
   * `_load`: no data file leaves memory untouched; unparsable text is moved
   * aside and raises ServerError; otherwise the document's `data` replaces
   * the in-memory data. The lock token is never touched.
   */
  function Load(c: Codec, st: Store): (r: Out<()>)
    ensures st.disk.dataFile.None? ==> r == Out(st, Ok(()))
    ensures r.st.disk.lockFile == st.disk.lockFile
    ensures st.disk.dataFile.Some? ==> (r.res.Ok? <==> Persisted(c, st.disk).Some?)
    ensures Persisted(c, st.disk).Some? ==> r == Out(st.(mem := Persisted(c, st.disk).value), Ok(()))
    ensures st.disk.dataFile.Some? && c.loads(st.disk.dataFile.value).None? ==>
              && r.res == Err(ServerError("Data could not be loaded"))
              && r.st == st.(disk := st.disk.(dataFile := None, backups := st.disk.backups + [st.disk.dataFile.value]))
    ensures st.disk.dataFile.Some? && c.loads(st.disk.dataFile.value).Some? && DataOf(c.loads(st.disk.dataFile.value).value).Err? ==>
              r == Out(st, Err(DataOf(c.loads(st.disk.dataFile.value).value).error))
    ensures r.res.Err? && r.st.disk != st.disk ==> r.res.error.ServerError?
  {
    match st.disk.dataFile
    case None => Out(st, Ok(()))
    case Some(text) =>
      match c.loads(text)
      case None =>
        var moved := st.disk.(dataFile := None, backups := st.disk.backups + [text]);
        Out(st.(disk := moved), Err(ServerError("Data could not be loaded")))
      case Some(doc) =>
        match DataOf(doc)
        case Err(e) => Out(st, Err(e))
        case Ok(data) => Out(st.(mem := data), Ok(()))
  }

  /**
   * `_save`: the data file is replaced by the document holding the data and the version,
   * from which a load reads the in-memory data back; nothing else changes.
   */
  function Save(c: Codec, st: Store): (r: Store)
    ensures r.mem == st.mem
    ensures r.disk.lockFile == st.disk.lockFile && r.disk.backups == st.disk.backups
    ensures r.disk.dataFile == Some(c.dumps(FileDoc(st.mem)))
    ensures Lawful(c) ==> Persisted(c, r.disk) == Some(st.mem)
  {
    st.(disk := st.disk.(dataFile := Some(c.dumps(FileDoc(st.mem)))))
  }

  /** A save is durable: loading afterwards restores exactly what was saved. */
  lemma SaveLoad(c: Codec, st: Store, scratch: Json)
    requires Lawful(c)
    ensures Load(c, Save(c, st).(mem := scratch)) == Out(Save(c, st), Ok(()))
  {
  }

  /**
   * `_save` as it behaves under Python 3: opening the data file for binary
   * writing truncates it, and `json.dump` then hands text to a byte stream,
   * which raises TypeError. That exception is not one `_save` converts into
   * ServerError, so it escapes, and the file is left empty.
   */
  function SavePython3(st: Store): (r: Out<()>)
    ensures r.res == Err(TypeError)
    ensures r.st.mem == st.mem && r.st.disk.lockFile == st.disk.lockFile && r.st.disk.backups == st.disk.backups
    ensures r.st.disk.dataFile.Some? && |r.st.disk.dataFile.value| == 0
  {
    Out(st.(disk := st.disk.(dataFile := Some(""))), Err(TypeError))
  }

  /**
   * Under Python 3 a save is never durable: the next load finds the emptied
   * file, which is not JSON, moves it aside and raises ServerError, whatever
   * data was saved. Compare `SaveLoad`.
   */
  lemma Python3SaveLosesData(c: Codec, st: Store, scratch: Json)
    requires Lawful(c)
    ensures var saved := SavePython3(st);
            && saved.res.Err?
            && Load(c, saved.st.(mem := scratch)) ==
               Out(Store(st.disk.(dataFile := None, backups := st.disk.backups + [""]), scratch),
                   Err(ServerError("Data could not be loaded")))
            && Persisted(c, saved.st.disk).None?
  {
  }

  /**
   * `autosave`: `_load`, the body, `_save`. A failing load skips the body;
   * a body that raises skips the save, so the files stay as loaded.
   */
  function Autosave(c: Codec, st: Store, body: Json -> Effect): (r: Out<()>)
    ensures Load(c, st).res.Err? ==> r == Load(c, st)
    ensures r.st.disk.lockFile == st.disk.lockFile
    ensures Load(c, st).res.Ok? ==>
              var e := body(Load(c, st).st.mem);
              && r.st.mem == e.mem
              && (e.raised.Some? ==> r.res == Err(e.raised.value) && r.st.disk == st.disk)
              && (e.raised.None? ==> r.res.Ok? && r.st.disk.dataFile == Some(c.dumps(FileDoc(e.mem))))
              && r.st.disk.backups == st.disk.backups
  {
    var loaded := Load(c, st);
    if loaded.res.Err? then loaded
    else
      var e := body(loaded.st.mem);
      var after := loaded.st.(mem := e.mem);
      if e.raised.Some? then Out(after, Err(e.raised.value)) else Out(Save(c, after), Ok(()))
  }

  /**
   * Updating the mapping with new fields: a right-biased merge. New values win, other keys
   * keep theirs, and no key is lost; on a non-dict it raises AttributeError.
   */
  function Update(m: Json, kw: map<string, Json>): (e: Effect)
    ensures e.raised.None? <==> m.Obj?
    ensures e.raised.Some? ==> e == Effect(m, Some(AttributeError))
    ensures m.Obj? ==> e.mem.Obj? && e.mem.fields.Keys == m.fields.Keys + kw.Keys
    ensures m.Obj? ==> forall k :: k in kw ==> e.mem.fields[k] == kw[k]
    ensures m.Obj? ==> forall k :: k in m.fields && k !in kw ==> e.mem.fields[k] == m.fields[k]
  {
    match m
    case Obj(fields) => Effect(Obj(fields + kw), None)
    case _ => Effect(m, Some(AttributeError))
  }

  predicate Distinct(keys: seq<string>)
  {
    forall i, j :: 0 <= i < j < |keys| ==> keys[i] != keys[j]
  }

  /**
   * Deleting the keys one at a time: succeeds exactly when there is
   * nothing to delete, or the data is a dict holding every key once; then
   * exactly those keys are gone. Otherwise the first failing `del` raises.
   */
  function DeleteKeys(m: Json, keys: seq<string>): (e: Effect)
    ensures e.raised.None? <==>
              |keys| == 0 || (m.Obj? && Distinct(keys) && forall i :: 0 <= i < |keys| ==> keys[i] in m.fields)
    ensures e.raised.None? && m.Obj? ==> e.mem == Obj(m.fields - set k | k in keys)
    ensures e.raised.Some? ==> if m.Obj? then e.raised.value.KeyError? else e.raised.value == TypeError
    decreases |keys|
  {
    if |keys| == 0 then Effect(m, None)
    else
      match m
      case Obj(fields) =>
        if keys[0] in fields then
          var e := DeleteKeys(Obj(fields - {keys[0]}), keys[1..]);
          assert (set k | k in keys) == {keys[0]} + set k | k in keys[1..];
          assert Distinct(keys) <==> Distinct(keys[1..]) && forall i :: 0 <= i < |keys[1..]| ==> keys[1..][i] != keys[0];
          e
        else
          Effect(m, Some(KeyError(keys[0])))
      case _ => Effect(m, Some(TypeError))
  }

  /**
   * `Data.add_data(**kw)`: after a successful load, the loaded mapping merged
   * with `kw` is kept and saved; a non-dict raises AttributeError and nothing
   * is saved.
   */
  function AddData(c: Codec, st: Store, kw: map<string, Json>): (r: Out<()>)
    ensures Load(c, st).res.Err? ==> r == Load(c, st)
    ensures r.st.disk.lockFile == st.disk.lockFile
    ensures Load(c, st).res.Ok? ==>
              var m := Load(c, st).st.mem;
              && (r.res.Ok? <==> m.Obj?)
              && (m.Obj? ==> r.st.mem == Obj(m.fields + kw) && r.st.disk.dataFile == Some(c.dumps(FileDoc(r.st.mem))))
              && (!m.Obj? ==> r == Out(st.(mem := m), Err(AttributeError)))
  {
    Autosave(c, st, m => Update(m, kw))
  }

  /**
   * `Data.remove_data(*keys)`: after a successful load, the listed keys are
   * deleted and the rest saved, provided each is present once; otherwise the
   * failing `del` raises and the files are left as they were.
   */
  function RemoveData(c: Codec, st: Store, keys: seq<string>): (r: Out<()>)
    ensures Load(c, st).res.Err? ==> r == Load(c, st)
    ensures r.st.disk.lockFile == st.disk.lockFile
    ensures Load(c, st).res.Ok? ==>
              var m := Load(c, st).st.mem;
              && (r.res.Ok? <==> |keys| == 0 || (m.Obj? && Distinct(keys) && forall i :: 0 <= i < |keys| ==> keys[i] in m.fields))
              && (r.res.Ok? && m.Obj? ==>
                    r.st.mem == Obj(m.fields - set k | k in keys) && r.st.disk.dataFile == Some(c.dumps(FileDoc(r.st.mem))))
              && (r.res.Err? ==> r.st.disk == st.disk && (r.res.error.KeyError? || r.res.error == TypeError))
  {
    Autosave(c, st, m => DeleteKeys(m, keys))
  }

  /** The `data` object of an import file's text, when it parses and has one. */
  function ImportedFields(c: Codec, source: Option<string>): Option<map<string, Json>>
  {
    if source.None? then None
    else
      match c.loads(source.value)
      case Some(Obj(doc)) => if "data" in doc && doc["data"].Obj? then Some(doc["data"].fields) else None
      case _ => None
  }

  /**
   * The body of `Data.import_data`: parse the import file (None: it could
   * not be opened) and merge its `data` object into the in-memory data.
   */
  function ImportBody(c: Codec, m: Json, source: Option<string>): (e: Effect)
    ensures e.raised.None? <==> m.Obj? && ImportedFields(c, source).Some?
    ensures e.raised.None? ==> e == Update(m, ImportedFields(c, source).value)
    ensures e.raised.Some? ==> e.mem == m
    ensures source.None? ==> e == Effect(m, Some(IOError))
    ensures source.Some? && c.loads(source.value).None? ==> e == Effect(m, Some(ValueError))
  {
    match source
    case None => Effect(m, Some(IOError))
    case Some(text) =>
      match c.loads(text)
      case None => Effect(m, Some(ValueError))
      case Some(doc) =>
        if !m.Obj? then Effect(m, Some(AttributeError))
        else
          match Index(doc, "data")
          case Err(e) => Effect(m, Some(e))
          case Ok(Obj(g)) => Update(m, g)
          case Ok(_) => Effect(m, Some(TypeError))
  }

  /**
   * `Data.import_data(filename)`: after a successful load, the `data` object
   * of the import file is merged in and saved; a missing or unparsable import
   * file raises and leaves the files as they were.
   */
  function ImportData(c: Codec, st: Store, source: Option<string>): (r: Out<()>)
    ensures Load(c, st).res.Err? ==> r == Load(c, st)
    ensures r.st.disk.lockFile == st.disk.lockFile
    ensures Load(c, st).res.Ok? ==>
              var m := Load(c, st).st.mem;
              && (r.res.Ok? <==> m.Obj? && ImportedFields(c, source).Some?)
              && (r.res.Ok? ==>
                    r.st.mem == Obj(m.fields + ImportedFields(c, source).value)
                    && r.st.disk.dataFile == Some(c.dumps(FileDoc(r.st.mem))))
              && (r.res.Err? ==> r.st == st.(mem := m))
              && (source.None? ==> r.res == Err(IOError))
  {
    Autosave(c, st, m => ImportBody(c, m, source))
  }

  /**
   * `add_data` under `autosave`: the data saved is the data previously on
   * disk merged with `kw`, new values winning, stamped with the current version.
   */
  lemma AddDataMerges(c: Codec, st: Store, kw: map<string, Json>, prior: map<string, Json>)
    requires Lawful(c)
    requires Persisted(c, st.disk) == Some(Obj(prior))
    ensures var r := AddData(c, st, kw);
            && r.res.Ok?
            && r.st.disk == st.disk.(dataFile := Some(c.dumps(FileDoc(Obj(prior + kw)))))
            && Persisted(c, r.st.disk) == Some(Obj(prior + kw))
  {
  }

  /**
   * `remove_data` under `autosave`: listed keys that are all present (once
   * each) are removed durably; otherwise an exception is raised before the
   * save and the files are unchanged.
   */
  lemma RemoveDataDurable(c: Codec, st: Store, keys: seq<string>, prior: map<string, Json>)
    requires Lawful(c)
    requires Persisted(c, st.disk) == Some(Obj(prior))
    ensures var r := RemoveData(c, st, keys);
            var present := forall i :: 0 <= i < |keys| ==> keys[i] in prior;
            && (present && Distinct(keys) ==>
                  r.res.Ok? && Persisted(c, r.st.disk) == Some(Obj(prior - set k | k in keys)))
            && (!present ==> r.res.Err? && r.res.error.KeyError? && r.st.disk == st.disk)
  {
  }

  /** Importing a file in the saved format is the same merge as `add_data` with its `data`. */
  lemma ImportIsAddData(c: Codec, st: Store, g: map<string, Json>)
    requires Lawful(c)
    ensures ImportData(c, st, Some(c.dumps(FileDoc(Obj(g))))) == AddData(c, st, g)
  {
    var source := Some(c.dumps(FileDoc(Obj(g))));
    var loaded := Load(c, st);
    if loaded.res.Ok? {
      assert ImportBody(c, loaded.st.mem, source) == Update(loaded.st.mem, g);
    }
  }
}
