/** The file service as it is written: uploads and deletions over the disk and the files table. Every
    execution is a run of the file protocol. */
module FileService {
  import opened Domain
  import opened Names
  import opened Files
  import opened Environments
  import opened Transactions

  datatype FileError = TooLarge | UnsupportedMime | FileNotFound | FileForbidden | StorageFailure | DatabaseFailure

  datatype FileResult = Stored(file: File) | NotStored(error: FileError)

  const MAX_FILE_SIZE: nat := 50 * 1024 * 1024

  class Disk {
    const env: Environment
    var files: map<Path, nat>

    constructor (env: Environment)
      ensures this.env == env && files == map[]
    {
      this.env, files := env, map[];
    }

    /** A write that fails can leave some part of the file. */
    method WriteFile(path: Path, size: nat) returns (reply: Reply, part: Option<nat>)
      modifies this, env
      ensures env.asked == old(env.asked) + 1 && reply == old(env.Next(0))
      ensures part == if reply.Lost? then Some(env.reactions(old(env.asked)).number) else None
      ensures files == if reply.Done? then old(files)[path := size]
                       else if part.Some? then old(files)[path := part.value] else old(files)
    {
      var r := env.Ask();
      reply := r.reply;
      part := if reply.Lost? then Some(r.number) else None;
      if reply.Done? { files := files[path := size]; }
      else if part.Some? { files := files[path := part.value]; }
    }

    method Remove(path: Path) returns (reply: Reply)
      modifies this, env
      ensures env.asked == old(env.asked) + 1 && reply == old(env.Next(0))
      ensures files == if reply.TookEffect() then old(files) - {path} else old(files)
    {
      var r := env.Ask();
      reply := r.reply;
      if reply.TookEffect() { files := files - {path}; }
    }
  }

  /** The upload of f stands at this stage; nothing else differs from s. */
  function Holding(s: State, f: File, stage: UploadStage): State {
    s.(uploads := s.uploads[f.id := Files.Upload.Upload(f, stage)], hist := s.hist.(known := s.hist.known[f.id := f]))
  }

  /** Where an upload stands once its file write is answered. */
  function AfterWrite(s: State, f: File, reply: Reply, part: Option<nat>): State {
    var known := s.(hist := s.hist.(known := s.hist.known[f.id := f]));
    if reply.Done? then Holding(s, f, SaveRow).(disk := s.disk[f.path := f.size])
    else match part
         case None => known
         case Some(n) => LeaveBehind(known.(disk := s.disk[f.path := n]), f.path)
  }

  lemma CallStep(s: State, f: File)
    requires Unclaimed(s.hist.known, f.path) && Unheard(s, f.id)
    ensures From(s, Called(s, f))
  {
    FromItself(s);
    FromMore(s, s, CallUpload(f));
  }

  lemma WriteStep(o: State, s: State, id: FileId, reply: Reply, part: Option<nat>)
    requires From(o, s) && id in s.uploads && s.uploads[id].stage.WriteFile?
    ensures From(o, Written(s, s.uploads[id], reply, part))
  {
    FromMore(o, s, Write(id, reply, part));
  }

  lemma SaveStep(o: State, s: State, id: FileId, reply: Reply)
    requires From(o, s) && id in s.uploads && s.uploads[id].stage.SaveRow?
    ensures From(o, Saved(s, s.uploads[id], reply))
  {
    FromMore(o, s, Save(id, reply));
  }

  lemma ClearStep(o: State, s: State, id: FileId, reply: Reply)
    requires From(o, s) && id in s.uploads && s.uploads[id].stage.Undo?
    ensures From(o, Cleared(s, s.uploads[id], reply))
  {
    FromMore(o, s, Clear(id, reply));
  }

  lemma WriteSteps(s: State, f: File, reply: Reply, part: Option<nat>)
    requires Unclaimed(s.hist.known, f.path) && Unheard(s, f.id)
    ensures From(s, AfterWrite(s, f, reply, part))
  {
    var t := Called(s, f);
    CallStep(s, f);
    WriteStep(s, t, f.id, reply, part);
    WrittenIs(s, f, reply, part);
  }

  lemma WrittenIs(s: State, f: File, reply: Reply, part: Option<nat>)
    requires f.id !in s.uploads
    ensures Written(Called(s, f), Called(s, f).uploads[f.id], reply, part) == AfterWrite(s, f, reply, part)
  {
    var t := Called(s, f);
    assert t.uploads - {f.id} == s.uploads;
    assert t.uploads[f.id := t.uploads[f.id].(stage := SaveRow)] == Holding(s, f, SaveRow).uploads;
  }

  // ---------- the protocol steps behind a deletion ----------

  /** The deletion op stands at this stage inside its lock; nothing else differs from s. */
  function Deleting(s: State, op: nat, d: Deletion, stage: DeleteStage): State {
    s.(deletions := s.deletions[op := d.(stage := stage)], lock := s.lock[d.id := op])
  }

  predicate Newcomer(s: State, op: nat, d: Deletion) {
    s.guarded && op !in s.deletions && d.id !in s.lock && forall f :: f in s.lock ==> s.lock[f] != op
  }

  /** The deletion has been called and waits for its lock. */
  function Waiting(s: State, op: nat, d: Deletion): State { s.(deletions := s.deletions[op := d.(stage := AwaitLock)]) }

  lemma LockSteps(s: State, op: nat, d: Deletion)
    requires Newcomer(s, op, d)
    ensures From(s, Deleting(s, op, d, ReadRow))
  {
    var t := Waiting(s, op, d);
    FromItself(s);
    FromMore(s, s, CallDelete(op, d.user, d.id));
    assert Files.Apply(s, CallDelete(op, d.user, d.id)) == t;
    FromMore(s, t, Step.Lock(op));
    assert t.deletions[op := d.(stage := ReadRow)] == s.deletions[op := d.(stage := ReadRow)];
  }

  lemma Released(s: State, op: nat, d: Deletion, stage: DeleteStage)
    requires Newcomer(s, op, d)
    ensures Release(Deleting(s, op, d, stage), op) == s
  {
    var t := Release(Deleting(s, op, d, stage), op);
    assert t.deletions == s.deletions;
    assert t.lock == s.lock;
  }

  /** The row as the deletion leaves it. */
  function RowGone(s: State, id: FileId): State {
    s.(rows := s.rows - {id}, hist := s.hist.(removals := s.hist.removals + multiset{id}))
  }

  lemma ReadSteps(s: State, op: nat, d: Deletion)
    requires Newcomer(s, op, d) && d.id in s.rows && s.rows[d.id].owner == d.user
    ensures From(s, Deleting(s, op, d, DropRow(s.rows[d.id])))
  {
    var t, u := Deleting(s, op, d, ReadRow), Deleting(s, op, d, DropRow(s.rows[d.id]));
    LockSteps(s, op, d);
    FromMore(s, t, Read(op));
    assert Files.Apply(t, Read(op)).deletions == u.deletions;
    assert Files.Apply(t, Read(op)) == u;
  }

  /** What the commit of the row deletion makes of the system. */
  function AfterDrop(s: State, op: nat, d: Deletion, seen: File, reply: Reply): State {
    match reply
    case Done => Deleting(RowGone(s, d.id), op, d, RemoveFile(seen))
    case Refused => s
    case Lost => LeaveBehind(RowGone(s, d.id), seen.path)
  }

  lemma DropSteps(s: State, op: nat, d: Deletion, reply: Reply)
    requires Newcomer(s, op, d) && d.id in s.rows && s.rows[d.id].owner == d.user
    ensures From(s, AfterDrop(s, op, d, s.rows[d.id], reply))
  {
    var u := Deleting(s, op, d, DropRow(s.rows[d.id]));
    ReadSteps(s, op, d);
    DropStep(s, u, op, reply);
    DroppedIs(s, op, d, reply);
  }

  lemma DroppedIs(s: State, op: nat, d: Deletion, reply: Reply)
    requires Newcomer(s, op, d) && d.id in s.rows
    ensures var seen := s.rows[d.id]; var u := Deleting(s, op, d, DropRow(seen));
      Dropped(u, op, u.deletions[op], seen, reply) == AfterDrop(s, op, d, seen, reply)
  {
    var seen := s.rows[d.id];
    var u := Deleting(s, op, d, DropRow(seen));
    Released(s, op, d, DropRow(seen));
    Released(RowGone(s, d.id), op, d, DropRow(seen));
    assert u.deletions[op := d.(stage := RemoveFile(seen))] == s.deletions[op := d.(stage := RemoveFile(seen))];
  }

  lemma DropStep(o: State, s: State, op: nat, reply: Reply)
    requires From(o, s) && op in s.deletions && s.deletions[op].stage.DropRow?
    ensures From(o, Dropped(s, op, s.deletions[op], s.deletions[op].stage.seen, reply))
  {
    FromMore(o, s, Drop(op, reply));
  }

  lemma RemoveSteps(o: State, s: State, op: nat, d: Deletion, seen: File, reply: Reply)
    requires Newcomer(s, op, d) && From(o, Deleting(s, op, d, RemoveFile(seen)))
    ensures From(o, if reply.TookEffect() then s.(disk := s.disk - {seen.path}) else LeaveBehind(s, seen.path))
  {
    var t := Deleting(s, op, d, RemoveFile(seen));
    FromMore(o, t, Remove(op, reply));
    Released(s, op, d, RemoveFile(seen));
    assert Files.Apply(t, Remove(op, reply)) == Removed(t, op, seen, reply);
  }

  class FileService {
    const env: Environment
    const fileRepo: TxManager<map<FileId, File>, FileError>
    const disk: Disk
    /** Whether deletions run in a transaction; they are inside the mutex of the file in any case. */
    const hasTx: bool
    var fileMu: set<FileId>
    var nextOp: nat
    /** The protocol state this service is part of. */
    ghost var sys: State

    constructor (fileRepo: TxManager<map<FileId, File>, FileError>, disk: Disk, hasTx: bool)
      requires fileRepo.table == map[] && disk.files == map[] && fileRepo.env == disk.env
      ensures Valid() && Init(sys) && fileMu == {}
      ensures this.fileRepo == fileRepo && this.disk == disk && this.hasTx == hasTx
    {
      this.env, this.fileRepo, this.disk, this.hasTx := disk.env, fileRepo, disk, hasTx;
      fileMu, nextOp := {}, 0;
      sys := State(true, map[], map[], map[], map[], map[], History(map[], {}, {}, multiset{}));
    }

    ghost predicate Tied()
      reads this, fileRepo, disk
    {
      && fileRepo.env == env && disk.env == env
      && sys.rows == fileRepo.table && sys.disk == disk.files && sys.guarded
      && (forall op :: op in sys.deletions ==> op < nextOp) && (forall f :: f in sys.lock ==> sys.lock[f] < nextOp)
    }

    ghost predicate Valid()
      reads this, fileRepo, disk
    {
      Tied() && sys.lock.Keys == fileMu && KnownOk(sys.hist.known)
    }

    /** What the upload of f, once accepted, makes of the row table and the disk: exactly what the replies to
        the file write, to the insert and to the clean-up determine. */
    twostate predicate Uploaded(f: File, new r: FileResult)
      reads this, fileRepo, disk, env
    {
      var written, saved, cleared := old(env.Next(0)), old(env.Next(1)), old(env.Next(2));
      && From(old(sys), sys) && fileMu == old(fileMu)
      && r == (if !written.Done? then NotStored(StorageFailure) else if !saved.Done? then NotStored(DatabaseFailure) else Stored(f))
      && fileRepo.table == (if written.Done? && saved.TookEffect() then old(fileRepo.table)[f.id := f] else old(fileRepo.table))
      && disk.files == (match written
                        case Refused => old(disk.files)
                        case Lost => old(disk.files)[f.path := env.reactions(old(env.asked)).number]
                        case Done => if saved.Done? || !cleared.TookEffect() then old(disk.files)[f.path := f.size]
                                     else old(disk.files) - {f.path})
    }

    /** Writes the file, then its row; if the row fails, removes the file again, as far as it can be removed. */
    method Upload(user: Text, filename: Text, size: nat, allowedMime: bool, id: FileId) returns (r: FileResult)
      requires Valid() && Ordinary(user) && IsUuid(id) && Unheard(sys, id)
      modifies this, fileRepo, disk, env
      ensures Valid()
      ensures var f := File(id, user, filename, StoragePath(ROOT, user, SafeName(filename), id), size);
        if size > 50 * 1024 * 1024 then r == NotStored(TooLarge) && sys == old(sys)
        else if !allowedMime then r == NotStored(UnsupportedMime) && sys == old(sys)
        else Uploaded(f, r)
    {
      if size > MAX_FILE_SIZE { return NotStored(TooLarge); }
      if !allowedMime { return NotStored(UnsupportedMime); }
      var f := File(id, user, filename, StoragePath(ROOT, user, SafeName(filename), id), size);
      FreshPath(sys.hist.known, f);
      KnownMore(sys.hist.known, f);
      r := Store(f);
    }

    method Store(f: File) returns (r: FileResult)
      requires Tied() && Unclaimed(sys.hist.known, f.path) && Unheard(sys, f.id)
      modifies this`sys, fileRepo, disk, env
      ensures Tied() && sys.lock == old(sys.lock) && sys.hist.known == old(sys.hist.known)[f.id := f] && Uploaded(f, r)
    {
      ghost var s0, files := sys, disk.files;
      var written := PutFile(f);
      r := NotStored(StorageFailure);
      if written {
        r := SaveOrUndo(f, s0);
        assert files[f.path := f.size] - {f.path} == files - {f.path};
      }
    }

    /** Writes the physical file. */
    method PutFile(f: File) returns (ok: bool)
      requires Tied() && Unclaimed(sys.hist.known, f.path) && Unheard(sys, f.id)
      modifies this`sys, disk, env
      ensures Tied() && From(old(sys), sys) && sys.lock == old(sys.lock) && sys.hist.known == old(sys.hist.known)[f.id := f]
      ensures ok == old(env.Next(0)).Done? && env.asked == old(env.asked) + 1
      ensures disk.files == match old(env.Next(0))
                            case Done => old(disk.files)[f.path := f.size]
                            case Refused => old(disk.files)
                            case Lost => old(disk.files)[f.path := env.reactions(old(env.asked)).number]
      ensures ok ==> sys == Holding(old(sys), f, SaveRow).(disk := disk.files)
    {
      var written, part := disk.WriteFile(f.path, f.size);
      WriteSteps(sys, f, written, part);
      sys := AfterWrite(sys, f, written, part);
      ok := written.Done?;
    }

    /** The insert, and the clean-up when it fails. */
    method SaveOrUndo(f: File, ghost s0: State) returns (r: FileResult)
      requires Tied() && sys == Holding(s0, f, SaveRow).(disk := disk.files) && From(s0, sys)
      requires f.id !in s0.rows && f.id !in s0.uploads && f.path in disk.files && disk.files[f.path] == f.size
      modifies this`sys, fileRepo, disk, env
      ensures Tied() && From(s0, sys) && sys.lock == s0.lock && sys.hist.known == old(sys.hist.known)
      ensures var saved, cleared := old(env.Next(0)), old(env.Next(1));
        && r == (if saved.Done? then Stored(f) else NotStored(DatabaseFailure))
        && fileRepo.table == (if saved.TookEffect() then s0.rows[f.id := f] else s0.rows)
        && disk.files == (if saved.Done? || !cleared.TookEffect() then old(disk.files) else old(disk.files) - {f.path})
    {
      var saved := InsertRow(f, s0);
      if saved { return Stored(f); }
      Undo(f, s0);
      r := NotStored(DatabaseFailure);
    }

    method InsertRow(f: File, ghost s0: State) returns (ok: bool)
      requires Tied() && sys == Holding(s0, f, SaveRow).(disk := disk.files) && From(s0, sys) && f.id !in s0.rows && f.id !in s0.uploads
      modifies this`sys, fileRepo, env
      ensures Tied() && From(s0, sys) && sys.lock == s0.lock && sys.hist.known == old(sys.hist.known)
      ensures ok == old(env.Next(0)).Done? && env.asked == old(env.asked) + 1
      ensures fileRepo.table == if old(env.Next(0)).TookEffect() then s0.rows[f.id := f] else s0.rows
      ensures !ok ==> f.id in sys.uploads && sys.uploads[f.id] == Files.Upload.Upload(f, UploadStage.Undo)
    {
      var outcome, saved := fileRepo.Direct((t: map<FileId, File>) => if f.id in t then Rollback(DatabaseFailure) else Commit(t[f.id := f]));
      SaveStep(s0, sys, f.id, saved);
      sys := Saved(sys, sys.uploads[f.id], saved);
      ok := outcome.Committed?;
    }

    /** The best-effort removal; its error is ignored. */
    method Undo(f: File, ghost s0: State)
      requires Tied() && From(s0, sys) && f.id in sys.uploads && sys.uploads[f.id] == Files.Upload.Upload(f, UploadStage.Undo)
      modifies this`sys, disk, env
      ensures Tied() && From(s0, sys) && sys.lock == old(sys.lock) && sys.hist.known == old(sys.hist.known) && sys.rows == old(sys.rows)
      ensures disk.files == if old(env.Next(0)).TookEffect() then old(disk.files) - {f.path} else old(disk.files)
    {
      var cleared := disk.Remove(f.path);
      ClearStep(s0, sys, f.id, cleared);
      sys := Cleared(sys, sys.uploads[f.id], cleared);
    }

    // ---------- what a deletion comes to ----------

    ghost predicate Mine(user: Text, id: FileId)
      reads fileRepo
    {
      id in fileRepo.table && fileRepo.table[id].owner == user
    }

    /** What becomes of the row's deletion: it is the commit's reply, if a transaction had to be begun first. */
    ghost function RowDropped(user: Text, id: FileId): Reply
      reads fileRepo, env
    {
      if !Mine(user, id) then Refused
      else if !hasTx then env.Next(0)
      else if env.Next(0).Done? then env.Next(1) else Refused
    }

    /** Why the row is not known to be deleted, if so. */
    ghost function RowRefusal(user: Text, id: FileId): Option<FileError>
      reads fileRepo, env
    {
      if !env.Next(0).Done? then Some(DatabaseFailure)
      else if id !in fileRepo.table then Some(FileNotFound)
      else if !Mine(user, id) then Some(FileForbidden)
      else if !RowDropped(user, id).Done? then Some(DatabaseFailure)
      else None
    }

    /** The result of a deletion and what it makes of the row table and the disk: exactly what the row, its
        owner and the replies to the calls determine. The file goes only after its row. */
    twostate predicate Deleted(user: Text, id: FileId, new error: Option<FileError>)
      reads this, fileRepo, disk, env
    {
      var refusal, rows, files := old(RowRefusal(user, id)), old(fileRepo.table), old(disk.files);
      var removed := old(env.Next(if hasTx then 2 else 1));
      && From(old(sys), sys) && fileMu == old(fileMu)
      && fileRepo.table == (if old(RowDropped(user, id)).TookEffect() then rows - {id} else rows)
      && disk.files == (if refusal.None? && removed.TookEffect() then files - {rows[id].path} else files)
      && error == (if refusal.Some? then refusal
                   else if removed.Done? || rows[id].path !in files then None else Some(StorageFailure))
    }

    /** Deletes the row in its guard, then removes the file; a file that is gone already is fine. */
    method Delete(user: Text, id: FileId) returns (error: Option<FileError>)
      requires Valid() && id !in sys.lock
      modifies this, fileRepo, disk, env
      ensures Valid() && Deleted(user, id, error)
    {
      ghost var op, d := nextOp, Deletion(user, id, AwaitLock);
      fileMu := fileMu + {id};
      nextOp := nextOp + 1;
      error := DeleteBoth(user, id, op, d);
      fileMu := fileMu - {id};
    }

    /** The row and then the file, inside the mutex of the file. */
    method DeleteBoth(user: Text, id: FileId, ghost op: nat, ghost d: Deletion) returns (error: Option<FileError>)
      requires Tied() && id in fileMu && d == Deletion(user, id, AwaitLock) && Newcomer(sys, op, d)
      modifies this`sys, fileRepo, disk, env
      ensures sys == old(sys).(rows := fileRepo.table, disk := disk.files, hist := sys.hist)
      ensures sys.hist.known == old(sys.hist.known) && Deleted(user, id, error)
    {
      ghost var s0 := sys;
      var seen;
      seen, error := DropFirst(user, id, op, d);
      if error.None? { error := RemoveBehind(seen.value, s0, RowGone(s0, id), op, d); }
    }

    /** The row goes first; if that is not confirmed, the deletion is over. */
    method DropFirst(user: Text, id: FileId, ghost op: nat, ghost d: Deletion) returns (seen: Option<File>, error: Option<FileError>)
      requires Tied() && d == Deletion(user, id, AwaitLock) && Newcomer(sys, op, d)
      modifies this`sys, fileRepo, env
      ensures error == old(RowRefusal(user, id))
      ensures fileRepo.table == if old(RowDropped(user, id)).TookEffect() then old(fileRepo.table) - {id} else old(fileRepo.table)
      ensures error.Some? ==> From(old(sys), sys) && sys == old(sys).(rows := fileRepo.table, hist := sys.hist)
      ensures sys.hist.known == old(sys.hist.known)
      ensures error.None? ==>
                && seen == Some(old(fileRepo.table)[id]) && env.asked == old(env.asked) + (if hasTx then 2 else 1)
                && From(old(sys), Deleting(RowGone(old(sys), id), op, d, DeleteStage.RemoveFile(seen.value)))
    {
      ghost var s0 := sys;
      FromItself(s0);
      var reply;
      seen, error, reply := DeleteRow(user, id);
      if seen.None? { return; }
      DropSteps(s0, op, d, reply);
      if error.Some? { sys := if reply.Lost? then LeaveBehind(RowGone(s0, id), seen.value.path) else s0; }
    }

    /** The physical file goes behind its row. */
    method RemoveBehind(seen: File, ghost o: State, ghost gone: State, ghost op: nat, ghost d: Deletion) returns (error: Option<FileError>)
      requires disk.env == env && gone.disk == disk.files
      requires Newcomer(gone, op, d) && From(o, Deleting(gone, op, d, DeleteStage.RemoveFile(seen)))
      modifies this`sys, disk, env
      ensures From(o, sys) && sys == gone.(disk := disk.files, hist := sys.hist) && sys.hist.known == gone.hist.known
      ensures disk.files == if old(env.Next(0)).TookEffect() then old(disk.files) - {seen.path} else old(disk.files)
      ensures error == if old(env.Next(0)).Done? || seen.path !in old(disk.files) then None else Some(StorageFailure)
    {
      var removed;
      error, removed := RemovePhysical(seen.path);
      RemoveSteps(o, gone, op, d, seen, removed);
      sys := if removed.TookEffect() then gone.(disk := disk.files) else LeaveBehind(gone, seen.path);
    }

    /** The guard, in a transaction if there is one. `seen` is the row it deletes, if it gets that far. */
    method DeleteRow(user: Text, id: FileId) returns (seen: Option<File>, error: Option<FileError>, reply: Reply)
      requires fileRepo.env == env
      modifies fileRepo, env
      ensures seen == if old(Mine(user, id)) then Some(old(fileRepo.table)[id]) else None
      ensures reply == old(RowDropped(user, id)) && error == old(RowRefusal(user, id))
      ensures fileRepo.table == if reply.TookEffect() then old(fileRepo.table) - {id} else old(fileRepo.table)
      ensures error == None ==> env.asked == old(env.asked) + (if hasTx then 2 else 1)
    {
      seen := if id in fileRepo.table && fileRepo.table[id].owner == user then Some(fileRepo.table[id]) else None;
      var guard := (t: map<FileId, File>) =>
        if id !in t then Rollback(FileNotFound) else if t[id].owner != user then Rollback(FileForbidden) else Commit(t - {id});
      var outcome;
      if hasTx { outcome, reply := fileRepo.WithTx(guard); } else { outcome, reply := fileRepo.Direct(guard); }
      error := match outcome case Committed => None case Failed(e) => Some(e) case Broken => Some(DatabaseFailure);
    }

    /** The physical file goes after the commit. */
    method RemovePhysical(path: Path) returns (error: Option<FileError>, reply: Reply)
      requires disk.env == env
      modifies disk, env
      ensures reply == old(env.Next(0))
      ensures disk.files == if reply.TookEffect() then old(disk.files) - {path} else old(disk.files)
      ensures error == if reply.Done? || path !in old(disk.files) then None else Some(StorageFailure)
    {
      var there := path in disk.files;
      reply := disk.Remove(path);
      error := if reply.Done? || !there then None else Some(StorageFailure);
    }
  }
}
