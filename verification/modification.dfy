/**
 * `JSONModification` used as a context manager: enter takes the lock and
 * synchronises the data file, exit synchronises it again and releases.
 */
module Modification {
  import opened Base
  import opened JsonCodec
  import opened PidLock
  import opened Store

  /**
   * `__enter__`: build a non-safe `Lock` with the given timeout (checked by
   * its constructor, never used to retry), call `acquire()` once, then
   * `_load` and `_save`. A refused acquire changes nothing; a failing load
   * leaves the lock held.
   */
  function Open(c: Codec, pid: nat, timeout: int, st: Store): (r: Out<Lock>)
    ensures timeout < 0 ==> r == Out(st, Err(AssertionError))
    ensures timeout >= 0 && Acquire(Lock(pid, timeout, false), st.disk.lockFile).res.Err? ==>
              r == Out(st, Err(Acquire(Lock(pid, timeout, false), st.disk.lockFile).res.error))
    ensures r.res.Ok? ==> r.res.value == Lock(pid, timeout, false) && OwnedBy(r.st.disk.lockFile, pid)
    ensures r.res.Ok? && Lawful(c) ==> Persisted(c, r.st.disk) == Some(r.st.mem)
    ensures Lawful(c) && timeout >= 0 && st.disk.lockFile.None? && st.disk.dataFile.None? ==> r.res.Ok?
  {
    match NewLock(pid, timeout, false)
    case Err(e) => Out(st, Err(e))
    case Ok(l) =>
      var a := Acquire(l, st.disk.lockFile);
      if a.res.Err? then Out(st, Err(a.res.error))
      else
        var locked := st.(disk := st.disk.(lockFile := a.file));
        var loaded := Load(c, locked);
        if loaded.res.Err? then Out(loaded.st, Err(loaded.res.error))
        else Out(Save(c, loaded.st), Ok(l))
  }

  /**
   * `__exit__`: `_load`, `_save`, then `release()`. On success the token is
   * gone and the data file holds the data the load found.
   */
  function Close(c: Codec, l: Lock, st: Store): (r: Out<()>)
    ensures Load(c, st).res.Err? ==> r == Load(c, st)
    ensures r.res.Ok? ==> r.st.disk.lockFile.None?
    ensures Load(c, st).res.Ok? ==>
              (r.res.Ok? <==> Release(l, st.disk.lockFile).res.Ok?)
              && r.st.disk.dataFile == Some(c.dumps(FileDoc(Load(c, st).st.mem)))
  {
    var loaded := Load(c, st);
    if loaded.res.Err? then loaded
    else
      var saved := Save(c, loaded.st);
      var rel := Release(l, saved.disk.lockFile);
      Out(saved.(disk := saved.disk.(lockFile := rel.file)), rel.res)
  }

  /** Entering ignores the timeout: any two valid timeouts give the same files, data and outcome. */
  lemma OpenIgnoresTimeout(c: Codec, pid: nat, t1: int, t2: int, st: Store)
    requires t1 >= 0 && t2 >= 0
    ensures Open(c, pid, t1, st).st == Open(c, pid, t2, st).st
    ensures Open(c, pid, t1, st).res.Ok? <==> Open(c, pid, t2, st).res.Ok?
  {
    assert Acquire(Lock(pid, t1, false), st.disk.lockFile) == Acquire(Lock(pid, t2, false), st.disk.lockFile);
  }

  /** Entering an unlocked store creates this process's token, then loads and saves. */
  lemma OpenUnlocked(c: Codec, pid: nat, st: Store)
    requires st.disk.lockFile.None?
    ensures var locked := st.(disk := st.disk.(lockFile := Some(PidText(pid))));
            Load(c, locked).res.Ok? ==> Open(c, pid, 0, st) == Out(Save(c, Load(c, locked).st), Ok(Lock(pid, 0, false)))
  {
  }

  /** Leaving with the token this process wrote saves the loaded data and removes the token. */
  lemma CloseOwned(c: Codec, pid: nat, st: Store)
    requires st.disk.lockFile == Some(PidText(pid))
    requires Load(c, st).res.Ok?
    ensures Close(c, Lock(pid, 0, false), st).res.Ok?
    ensures Close(c, Lock(pid, 0, false), st).st.disk ==
            Save(c, Load(c, st).st).disk.(lockFile := None)
  {
    StoredPidText(pid);
    assert Release(Lock(pid, 0, false), Some(PidText(pid))) == LockStep(None, Ok(()));
  }

  /**
   * A whole session that adds fields, on an unlocked store
   * (test_data.test_add_user): afterwards the token is gone and the data
   * file holds the previous data merged with `kw`.
   */
  lemma AddDataSession(c: Codec, pid: nat, disk: Disk, prior: map<string, Json>, kw: map<string, Json>)
    requires Lawful(c)
    requires disk.lockFile.None?
    requires Persisted(c, disk) == Some(Obj(prior)) || (disk.dataFile.None? && prior == map[])
    ensures var entered := Open(c, pid, 0, Store(disk, Obj(map[])));
            && entered.res.Ok?
            && var added := AddData(c, entered.st, kw);
               && added.res.Ok?
               && var closed := Close(c, entered.res.value, added.st);
                  && closed.res.Ok?
                  && closed.st.disk.lockFile.None?
                  && Persisted(c, closed.st.disk) == Some(Obj(prior + kw))
  {
    var initial := Store(disk, Obj(map[]));
    var locked := initial.(disk := disk.(lockFile := Some(PidText(pid))));
    assert Load(c, locked).res.Ok? && Load(c, locked).st.mem == Obj(prior);
    OpenUnlocked(c, pid, initial);
    var entered := Open(c, pid, 0, initial);
    assert entered.st.disk.lockFile == Some(PidText(pid));
    assert Persisted(c, entered.st.disk) == Some(Obj(prior));
    AddDataMerges(c, entered.st, kw, prior);
    var added := AddData(c, entered.st, kw);
    assert added.st.disk.lockFile == Some(PidText(pid));
    assert Load(c, added.st).st.mem == Obj(prior + kw);
    CloseOwned(c, pid, added.st);
  }
}
