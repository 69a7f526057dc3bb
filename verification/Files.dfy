/** Uploads and deletions of files as one transition system over the files table and the disk, with
    failing calls and crashes at every step. */
module Files {
  import opened Domain
  import opened Names

  type FileId = Text

  /** `path` is where the upload put the file; the row stores it. */
  datatype File = File(id: FileId, owner: Text, filename: Text, path: Path, size: nat)

  const ROOT: Path := ["storage"]

  /** The file of an upload: its ID, its user's folder, and the path built from the names. */
  predicate Proper(f: File) {
    IsUuid(f.id) && Ordinary(f.owner) && f.path == StoragePath(ROOT, f.owner, SafeName(f.filename), f.id)
  }

  predicate KnownOk(known: map<FileId, File>) {
    forall i {:trigger Proper(known[i])} :: i in known ==> known[i].id == i && Proper(known[i])
  }

  /** No file known so far lies at the path. */
  predicate Unclaimed(known: map<FileId, File>, path: Path) { forall i :: i in known ==> known[i].path != path }

  lemma ProperApart(f: File, g: File)
    requires Proper(f) && Proper(g) && f.path == g.path
    ensures f.id == g.id
  {
    PathsDiffer(ROOT, f.owner, SafeName(f.filename), f.id, g.owner, SafeName(g.filename), g.id);
  }

  /** What a new upload relies on: a fresh ID gives a fresh path, whatever names were ever uploaded. */
  lemma FreshPath(known: map<FileId, File>, f: File)
    requires KnownOk(known) && Proper(f) && f.id !in known
    ensures Unclaimed(known, f.path)
  {
    forall i | i in known && known[i].path == f.path ensures false {
      assert Proper(known[i]);
      ProperApart(known[i], f);
    }
  }

  lemma KnownMore(known: map<FileId, File>, f: File)
    requires KnownOk(known) && Proper(f)
    ensures KnownOk(known[f.id := f])
  {
    var more := known[f.id := f];
    forall i | i in more ensures more[i].id == i && Proper(more[i]) {
      if i == f.id { assert more[i] == f; } else { assert more[i] == known[i] && Proper(known[i]); }
    }
  }

  /** An upload: write the physical file, insert the row, and if that fails remove the file again. */
  datatype UploadStage = WriteFile | SaveRow | Undo

  datatype Upload = Upload(file: File, stage: UploadStage)

  /** A deletion: inside its lock read the row and delete it, then remove the physical file. */
  datatype DeleteStage = AwaitLock | ReadRow | DropRow(seen: File) | RemoveFile(seen: File)

  datatype Deletion = Deletion(user: Text, id: FileId, stage: DeleteStage)

  /** History variables: no step reads them.
      known:     every file an upload was called for, by its ID.
      bereft:    files whose upload's clean-up removed them although their row was there, because the
                 row's insert had taken effect and reported an error.
      leftovers: paths of files that an interrupted or failed operation left without a row.
      removals:  how often the row of each file was deleted. */
  datatype History = History(known: map<FileId, File>, bereft: set<FileId>, leftovers: set<Path>, removals: multiset<FileId>)

  /** `guarded` tells whether deletions of one file exclude each other by a lock at all. */
  datatype State = State(
    guarded: bool,
    rows: map<FileId, File>,
    disk: map<Path, nat>,
    uploads: map<FileId, Upload>,
    deletions: map<nat, Deletion>,
    lock: map<FileId, nat>,
    hist: History)

  datatype Step =
    | CallUpload(file: File)
    | Write(id: FileId, reply: Reply, part: Option<nat>)
    | Save(id: FileId, reply: Reply)
    | Clear(id: FileId, reply: Reply)
    | CallDelete(op: nat, user: Text, id: FileId)
    | Lock(op: nat)
    | Read(op: nat)
    | Drop(op: nat, reply: Reply)
    | Remove(op: nat, reply: Reply)
    | GiveUp(op: nat)
    | Crash

  // ---------- uploads ----------

  function Leave(s: State, id: FileId): State { s.(uploads := s.uploads - {id}) }

  function LeaveBehind(s: State, path: Path): State { s.(hist := s.hist.(leftovers := s.hist.leftovers + {path})) }

  /** Writing the file: it may fail without trace, or leave part of the file. */
  function Written(s: State, u: Upload, reply: Reply, part: Option<nat>): State {
    var path := u.file.path;
    if reply.Done? then s.(disk := s.disk[path := u.file.size], uploads := s.uploads[u.file.id := u.(stage := SaveRow)])
    else match part
         case None => Leave(s, u.file.id)
         case Some(n) => LeaveBehind(Leave(s, u.file.id).(disk := s.disk[path := n]), path)
  }

  /** Inserting the row. Any error makes the upload remove the file again. */
  function Saved(s: State, u: Upload, reply: Reply): State {
    var id := u.file.id;
    match reply
    case Done => Leave(s, id).(rows := s.rows[id := u.file])
    case Refused => s.(uploads := s.uploads[id := u.(stage := Undo)])
    case Lost => s.(rows := s.rows[id := u.file], uploads := s.uploads[id := u.(stage := Undo)])
  }

  /** The best-effort removal; its error is ignored. */
  function Cleared(s: State, u: Upload, reply: Reply): State {
    var path := u.file.path;
    if reply.TookEffect() then
      Leave(s, u.file.id).(
        disk := s.disk - {path},
        hist := s.hist.(bereft := if u.file.id in s.rows then s.hist.bereft + {u.file.id} else s.hist.bereft))
    else LeaveBehind(Leave(s, u.file.id), path)
  }

  // ---------- deletions ----------

  function Release(s: State, op: nat): State {
    s.(deletions := s.deletions - {op}, lock := map f | f in s.lock && s.lock[f] != op :: s.lock[f])
  }

  function Goto(s: State, op: nat, d: Deletion, stage: DeleteStage): State {
    s.(deletions := s.deletions[op := d.(stage := stage)])
  }

  /** Deleting the row, committed with its transaction; a second deletion finds no row and fails. */
  function Dropped(s: State, op: nat, d: Deletion, seen: File, reply: Reply): State {
    if d.id !in s.rows || reply.Refused? then Release(s, op)
    else
      var t := s.(rows := s.rows - {d.id}, hist := s.hist.(removals := s.hist.removals + multiset{d.id}));
      if reply.Done? then Goto(t, op, d, RemoveFile(seen))
      else LeaveBehind(Release(t, op), seen.path)
  }

  /** Removing the file: a missing file is fine, another error leaves it behind. */
  function Removed(s: State, op: nat, seen: File, reply: Reply): State {
    var path := seen.path;
    if reply.TookEffect() then Release(s, op).(disk := s.disk - {path})
    else LeaveBehind(Release(s, op), path)
  }

  // ---------- the system ----------

  predicate Enabled(s: State, st: Step) {
    match st
    case CallUpload(f) => f.id !in s.hist.known && Unclaimed(s.hist.known, f.path)
    case Write(id, _, _) => id in s.uploads && s.uploads[id].stage.WriteFile?
    case Save(id, _) => id in s.uploads && s.uploads[id].stage.SaveRow?
    case Clear(id, _) => id in s.uploads && s.uploads[id].stage.Undo?
    case CallDelete(op, _, _) => op !in s.deletions
    case Lock(op) => op in s.deletions && s.deletions[op].stage.AwaitLock? && (s.guarded ==> s.deletions[op].id !in s.lock)
    case Read(op) =>
      && op in s.deletions && s.deletions[op].stage.ReadRow?
      && s.deletions[op].id in s.rows && s.rows[s.deletions[op].id].owner == s.deletions[op].user
    case Drop(op, _) => op in s.deletions && s.deletions[op].stage.DropRow?
    case Remove(op, _) => op in s.deletions && s.deletions[op].stage.RemoveFile?
    case GiveUp(op) => op in s.deletions && !s.deletions[op].stage.RemoveFile?
    case Crash => true
  }

  /** The paths that operations under way have written or are about to remove. */
  function UnderWay(s: State): set<Path> {
    (set id | id in s.uploads && !s.uploads[id].stage.WriteFile? :: s.uploads[id].file.path)
    + (set op | op in s.deletions && s.deletions[op].stage.RemoveFile? :: s.deletions[op].stage.seen.path)
  }

  function Apply(s: State, st: Step): State
    requires Enabled(s, st)
  {
    match st
    case CallUpload(f) => s.(uploads := s.uploads[f.id := Upload(f, WriteFile)], hist := s.hist.(known := s.hist.known[f.id := f]))
    case Write(id, reply, part) => Written(s, s.uploads[id], reply, part)
    case Save(id, reply) => Saved(s, s.uploads[id], reply)
    case Clear(id, reply) => Cleared(s, s.uploads[id], reply)
    case CallDelete(op, user, id) => s.(deletions := s.deletions[op := Deletion(user, id, AwaitLock)])
    case Lock(op) =>
      var d := s.deletions[op];
      Goto(s, op, d, ReadRow).(lock := if s.guarded then s.lock[d.id := op] else s.lock)
    case Read(op) => Goto(s, op, s.deletions[op], DropRow(s.rows[s.deletions[op].id]))
    case Drop(op, reply) => Dropped(s, op, s.deletions[op], s.deletions[op].stage.seen, reply)
    case Remove(op, reply) => Removed(s, op, s.deletions[op].stage.seen, reply)
    case GiveUp(op) => Release(s, op)
    case Crash => s.(uploads := map[], deletions := map[], lock := map[], hist := s.hist.(leftovers := s.hist.leftovers + UnderWay(s)))
  }

  predicate Init(s: State) {
    && s.rows == map[] && s.disk == map[] && s.uploads == map[] && s.deletions == map[] && s.lock == map[]
    && s.hist == History(map[], {}, {}, multiset{})
  }

  predicate Feasible(s: State, run: seq<Step>)
    decreases |run|
  {
    run == [] || (Enabled(s, run[0]) && Feasible(Apply(s, run[0]), run[1..]))
  }

  function Final(s: State, run: seq<Step>): State
    requires Feasible(s, run)
    decreases |run|
  {
    if run == [] then s else Final(Apply(s, run[0]), run[1..])
  }

  // ---------- the invariant ----------

  predicate RowOk(s: State, id: FileId)
    requires id in s.rows
  {
    var f := s.rows[id];
    && id in s.hist.known && f == s.hist.known[id]
    && (if id in s.hist.bereft then f.path !in s.disk else f.path in s.disk && s.disk[f.path] == f.size)
    && s.hist.removals[id] == 0
  }

  predicate UploadOk(s: State, id: FileId)
    requires id in s.uploads
  {
    var u := s.uploads[id];
    && u.file.id == id && id in s.hist.known && u.file == s.hist.known[id]
    && (u.stage.WriteFile? || u.stage.SaveRow? ==> id !in s.rows && id !in s.hist.bereft && s.hist.removals[id] == 0)
    && (u.stage.SaveRow? ==> u.file.path in s.disk && s.disk[u.file.path] == u.file.size)
  }

  predicate DeletionOk(s: State, op: nat)
    requires op in s.deletions
  {
    var d := s.deletions[op];
    match d.stage
    case AwaitLock => true
    case ReadRow => true
    case DropRow(f) => d.id in s.hist.known && f == s.hist.known[d.id] && f.owner == d.user && NotUploading(s, d.id)
    case RemoveFile(f) =>
      d.id in s.hist.known && f == s.hist.known[d.id] && f.owner == d.user && NotUploading(s, d.id) && d.id !in s.rows
  }

  /** The file's row, if it is gone, will not come (back). */
  predicate NotUploading(s: State, id: FileId) { id in s.uploads ==> s.uploads[id].stage.Undo? }

  predicate IsUnderWay(s: State, path: Path) {
    || (exists id :: id in s.uploads && !s.uploads[id].stage.WriteFile? && s.uploads[id].file.path == path)
    || (exists op :: op in s.deletions && s.deletions[op].stage.RemoveFile? && s.deletions[op].stage.seen.path == path)
  }

  predicate HasRow(s: State, path: Path) { exists id :: id in s.rows && s.rows[id].path == path }

  predicate Accounted(s: State, path: Path) { HasRow(s, path) || IsUnderWay(s, path) || path in s.hist.leftovers }

  /** The files ever uploaded lie at different paths. */
  predicate Apart(known: map<FileId, File>) {
    && (forall i :: i in known ==> known[i].id == i)
    && forall i, j :: i in known && j in known && known[i].path == known[j].path ==> i == j
  }

  predicate RowsOk(s: State) { forall id :: id in s.rows ==> RowOk(s, id) && NotUploading(s, id) }

  predicate UploadsOk(s: State) { forall id :: id in s.uploads ==> UploadOk(s, id) }

  predicate DeletionsOk(s: State) { forall op :: op in s.deletions ==> DeletionOk(s, op) }

  predicate DiskOk(s: State) { forall path :: path in s.disk ==> Accounted(s, path) }

  ghost predicate RemovalsOk(s: State) {
    forall id :: s.hist.removals[id] <= 1 && (id in s.hist.removals ==> id in s.hist.known && NotUploading(s, id))
  }

  ghost predicate Inv(s: State) {
    RowsOk(s) && UploadsOk(s) && DeletionsOk(s) && DiskOk(s) && RemovalsOk(s) && Apart(s.hist.known) && s.hist.bereft <= s.hist.known.Keys
  }

  lemma InitInv(s: State)
    requires Init(s)
    ensures Inv(s)
  {
  }

  // ---------- a new upload ----------

  lemma StillApart(known: map<FileId, File>, f: File)
    requires Apart(known) && f.id !in known && Unclaimed(known, f.path)
    ensures Apart(known[f.id := f])
  {
  }

  function Called(s: State, f: File): State {
    s.(uploads := s.uploads[f.id := Upload(f, WriteFile)], hist := s.hist.(known := s.hist.known[f.id := f]))
  }

  /** Nothing is known yet under the new ID. */
  predicate Unheard(s: State, id: FileId) { id !in s.uploads && id !in s.rows && s.hist.removals[id] == 0 && id !in s.hist.known && id !in s.hist.bereft }

  lemma CalledOthers(s: State, f: File)
    requires UploadsOk(s) && DeletionsOk(s) && Unheard(s, f.id)
    ensures UploadsOk(Called(s, f)) && DeletionsOk(Called(s, f))
  {
    var t := Called(s, f);
    forall k | k in t.uploads ensures UploadOk(t, k) {
      if k != f.id { assert UploadOk(s, k); }
    }
    forall op | op in t.deletions ensures DeletionOk(t, op) { assert DeletionOk(s, op); }
  }

  lemma CalledRows(s: State, f: File)
    requires RowsOk(s) && RemovalsOk(s) && Unheard(s, f.id)
    ensures RowsOk(Called(s, f)) && RemovalsOk(Called(s, f))
  {
    var t := Called(s, f);
    forall k | k in t.rows ensures RowOk(t, k) && NotUploading(t, k) { assert RowOk(s, k) && NotUploading(s, k); }
  }

  lemma CallInv(s: State, f: File)
    requires Inv(s) && f.id !in s.hist.known && Apart(s.hist.known[f.id := f])
    ensures Inv(Called(s, f))
  {
    assert forall id :: id in s.uploads ==> UploadOk(s, id);
    assert forall id :: id in s.rows ==> RowOk(s, id);
    assert Unheard(s, f.id);
    CalledRows(s, f);
    CalledOthers(s, f);
    CalledDisk(s, f);
  }

  lemma CalledDisk(s: State, f: File)
    requires DiskOk(s) && f.id !in s.uploads
    ensures DiskOk(Called(s, f))
  {
    var t := Called(s, f);
    forall path | path in t.disk ensures Accounted(t, path) {
      assert Accounted(s, path);
      if HasRow(s, path) { assert HasRow(t, path); }
      if k :| k in s.uploads && !s.uploads[k].stage.WriteFile? && s.uploads[k].file.path == path { assert t.uploads[k] == s.uploads[k]; }
    }
  }

  // ---------- uploads keep it ----------

  /** One upload moves: only its own file, row and place change. */
  predicate UploadMoves(s: State, t: State, id: FileId) {
    && id in s.uploads && t.deletions == s.deletions && t.hist.known == s.hist.known && t.hist.removals == s.hist.removals
    && s.hist.bereft <= t.hist.bereft <= s.hist.bereft + {id} && s.hist.leftovers <= t.hist.leftovers
    && t.uploads.Keys <= s.uploads.Keys
    && (forall k :: k in s.uploads && k != id ==> k in t.uploads && t.uploads[k] == s.uploads[k])
    && (t.rows == s.rows || t.rows == s.rows[id := s.uploads[id].file])
    && (forall path :: path in s.disk && path != s.uploads[id].file.path ==> path in t.disk && t.disk[path] == s.disk[path])
    && (forall path :: path in t.disk && path != s.uploads[id].file.path ==> path in s.disk)
  }

  /** Where the moving upload has to take care of itself. */
  predicate SelfOk(s: State, t: State, id: FileId)
    requires id in s.uploads
  {
    && (id in t.rows ==> RowOk(t, id) && NotUploading(t, id))
    && (t.rows != s.rows ==> s.uploads[id].stage.SaveRow?)
    && (id in t.uploads ==> UploadOk(t, id))
    && (NotUploading(s, id) ==> NotUploading(t, id))
    && (s.uploads[id].file.path in t.disk ==> Accounted(t, s.uploads[id].file.path))
  }

  lemma MovesRows(s: State, t: State, id: FileId)
    requires Apart(s.hist.known) && RowsOk(s) && UploadsOk(s) && UploadMoves(s, t, id) && SelfOk(s, t, id)
    ensures RowsOk(t)
  {
    assert UploadOk(s, id);
    forall k | k in t.rows ensures RowOk(t, k) && NotUploading(t, k) {
      if k != id { assert RowOk(s, k) && NotUploading(s, k); }
    }
  }

  lemma MovesUploads(s: State, t: State, id: FileId)
    requires Apart(s.hist.known) && UploadsOk(s) && UploadMoves(s, t, id) && SelfOk(s, t, id)
    ensures UploadsOk(t)
  {
    assert UploadOk(s, id);
    forall k | k in t.uploads ensures UploadOk(t, k) {
      if k != id { assert UploadOk(s, k); }
    }
  }

  lemma MovesDeletions(s: State, t: State, id: FileId)
    requires DeletionsOk(s) && UploadMoves(s, t, id) && SelfOk(s, t, id)
    ensures DeletionsOk(t)
  {
    forall op | op in t.deletions ensures DeletionOk(t, op) { assert DeletionOk(s, op); }
  }

  lemma MovesDisk(s: State, t: State, id: FileId)
    requires DiskOk(s) && UploadMoves(s, t, id) && SelfOk(s, t, id) && (id in s.rows ==> s.rows[id] == s.uploads[id].file)
    ensures DiskOk(t)
  {
    forall path | path in t.disk ensures Accounted(t, path) {
      if path != s.uploads[id].file.path {
        assert Accounted(s, path);
        if HasRow(s, path) {
          var k :| k in s.rows && s.rows[k].path == path;
          assert k in t.rows && t.rows[k].path == path;
        }
      }
    }
  }

  lemma MovesInv(s: State, t: State, id: FileId)
    requires Inv(s) && UploadMoves(s, t, id) && SelfOk(s, t, id)
    ensures Inv(t)
  {
    MovesRows(s, t, id);
    MovesUploads(s, t, id);
    MovesDeletions(s, t, id);
    assert id in s.rows ==> RowOk(s, id);
    assert UploadOk(s, id);
    MovesDisk(s, t, id);
    assert RemovalsOk(t);
  }

  /** Before it has written its file, an upload is not why a file is there. */
  lemma OwnPath(s: State, t: State, id: FileId)
    requires Inv(s) && id in s.uploads && s.uploads[id].stage.WriteFile? && t == Leave(s, id)
    requires Accounted(s, s.uploads[id].file.path)
    ensures Accounted(t, s.uploads[id].file.path)
  {
    assert forall k :: k in s.uploads && k != id ==> k in t.uploads && t.uploads[k] == s.uploads[k];
  }

  lemma WriteSelf(s: State, id: FileId, reply: Reply, part: Option<nat>)
    requires Inv(s) && id in s.uploads && s.uploads[id].stage.WriteFile?
    ensures SelfOk(s, Written(s, s.uploads[id], reply, part), id)
  {
    var t, path := Written(s, s.uploads[id], reply, part), s.uploads[id].file.path;
    assert UploadOk(s, id);
    if reply.Done? {
      assert t.uploads[id].file.path == path && IsUnderWay(t, path);
    } else if part.None? && path in s.disk {
      assert Accounted(s, path);
      OwnPath(s, t, id);
    }
  }

  lemma WriteInv(s: State, id: FileId, reply: Reply, part: Option<nat>)
    requires Inv(s) && id in s.uploads && s.uploads[id].stage.WriteFile?
    ensures Inv(Written(s, s.uploads[id], reply, part))
  {
    assert UploadOk(s, id);
    WriteSelf(s, id, reply, part);
    MovesInv(s, Written(s, s.uploads[id], reply, part), id);
  }

  lemma SaveSelf(s: State, id: FileId, reply: Reply)
    requires Inv(s) && id in s.uploads && s.uploads[id].stage.SaveRow?
    ensures SelfOk(s, Saved(s, s.uploads[id], reply), id)
  {
    var t, path := Saved(s, s.uploads[id], reply), s.uploads[id].file.path;
    assert UploadOk(s, id);
    if reply.Done? {
      assert t.rows[id].path == path && HasRow(t, path);
    } else {
      assert t.uploads[id].file.path == path && IsUnderWay(t, path);
    }
  }

  lemma SaveInv(s: State, id: FileId, reply: Reply)
    requires Inv(s) && id in s.uploads && s.uploads[id].stage.SaveRow?
    ensures Inv(Saved(s, s.uploads[id], reply))
  {
    assert UploadOk(s, id);
    SaveSelf(s, id, reply);
    MovesInv(s, Saved(s, s.uploads[id], reply), id);
  }

  lemma ClearInv(s: State, id: FileId, reply: Reply)
    requires Inv(s) && id in s.uploads && s.uploads[id].stage.Undo?
    ensures Inv(Cleared(s, s.uploads[id], reply))
  {
    var t := Cleared(s, s.uploads[id], reply);
    assert UploadOk(s, id);
    if id in s.rows { assert RowOk(s, id); }
    MovesInv(s, t, id);
  }

  // ---------- deletions keep it ----------

  /** A deletion that neither touches a row nor a file: it is called, locks, reads, or leaves. */
  predicate DeletionMoves(s: State, t: State, op: nat) {
    && t.rows == s.rows && t.disk == s.disk && t.uploads == s.uploads && t.hist == s.hist
    && (forall k :: k in t.deletions && k != op ==> k in s.deletions && t.deletions[k] == s.deletions[k])
    && (forall k :: k in s.deletions && k != op ==> k in t.deletions && t.deletions[k] == s.deletions[k])
    && (op in t.deletions ==> DeletionOk(t, op))
    && (op in s.deletions ==> !s.deletions[op].stage.RemoveFile?)
  }

  lemma DeletionMovesInv(s: State, t: State, op: nat)
    requires Inv(s) && DeletionMoves(s, t, op)
    ensures Inv(t)
  {
    forall k | k in t.rows ensures RowOk(t, k) && NotUploading(t, k) { assert RowOk(s, k) && NotUploading(s, k); }
    forall k | k in t.uploads ensures UploadOk(t, k) { assert UploadOk(s, k); }
    forall k | k in t.deletions ensures DeletionOk(t, k) { if k != op { assert DeletionOk(s, k); } }
    forall path | path in t.disk ensures Accounted(t, path) { assert Accounted(s, path); }
  }

  lemma ReadInv(s: State, op: nat)
    requires Inv(s) && Enabled(s, Read(op))
    ensures Inv(Apply(s, Read(op)))
  {
    var id := s.deletions[op].id;
    assert RowOk(s, id) && NotUploading(s, id);
    DeletionMovesInv(s, Apply(s, Read(op)), op);
  }

  /** The row goes; its file is now under way, or left behind. */
  lemma DropInv(s: State, op: nat, reply: Reply)
    requires Inv(s) && op in s.deletions && s.deletions[op].stage.DropRow?
    ensures Inv(Dropped(s, op, s.deletions[op], s.deletions[op].stage.seen, reply))
  {
    var d := s.deletions[op];
    var t := Dropped(s, op, d, d.stage.seen, reply);
    assert DeletionOk(s, op);
    if d.id !in s.rows || reply.Refused? {
      DeletionMovesInv(s, t, op);
    } else {
      assert RowOk(s, d.id) && NotUploading(s, d.id);
      DropRows(s, t, op);
      DropDisk(s, t, op);
    }
  }

  predicate RowGoes(s: State, t: State, op: nat) {
    && op in s.deletions && s.deletions[op].stage.DropRow?
    && var d := s.deletions[op];
      && d.id in s.rows && RowOk(s, d.id) && NotUploading(s, d.id) && DeletionOk(s, op)
      && t.rows == s.rows - {d.id} && t.disk == s.disk && t.uploads == s.uploads
      && t.hist.known == s.hist.known && t.hist.bereft == s.hist.bereft && s.hist.leftovers <= t.hist.leftovers
      && t.hist.removals == s.hist.removals + multiset{d.id}
      && (forall k :: k in s.deletions && k != op ==> k in t.deletions && t.deletions[k] == s.deletions[k])
      && t.deletions.Keys <= s.deletions.Keys
      && (op in t.deletions ==> t.deletions[op] == d.(stage := RemoveFile(d.stage.seen)))
      && (op !in t.deletions ==> d.stage.seen.path in t.hist.leftovers)
  }

  lemma DropRows(s: State, t: State, op: nat)
    requires Inv(s) && RowGoes(s, t, op)
    ensures RowsOk(t) && UploadsOk(t) && DeletionsOk(t) && RemovalsOk(t)
  {
    forall k | k in t.rows ensures RowOk(t, k) && NotUploading(t, k) { assert RowOk(s, k) && NotUploading(s, k); }
    forall k | k in t.uploads ensures UploadOk(t, k) { assert UploadOk(s, k); }
    forall k | k in t.deletions ensures DeletionOk(t, k) { assert DeletionOk(s, k); }
  }

  lemma DropDisk(s: State, t: State, op: nat)
    requires Inv(s) && RowGoes(s, t, op)
    ensures DiskOk(t)
  {
    var d := s.deletions[op];
    forall path | path in t.disk ensures Accounted(t, path) {
      assert Accounted(s, path);
      if path == d.stage.seen.path {
        assert op in t.deletions ==> IsUnderWay(t, path);
      } else {
        if k :| k in s.rows && s.rows[k].path == path { assert k in t.rows && t.rows[k].path == path; }
      }
    }
  }

  lemma RemoveInv(s: State, op: nat, reply: Reply)
    requires Inv(s) && op in s.deletions && s.deletions[op].stage.RemoveFile?
    ensures Inv(Removed(s, op, s.deletions[op].stage.seen, reply))
  {
    var d := s.deletions[op];
    var t := Removed(s, op, d.stage.seen, reply);
    forall k | k in t.deletions ensures DeletionOk(t, k) { assert DeletionOk(s, k); }
    RemoveKeeps(s, op, reply);
    RemoveDisk(s, op, reply);
  }

  lemma RemoveKeeps(s: State, op: nat, reply: Reply)
    requires Inv(s) && op in s.deletions && s.deletions[op].stage.RemoveFile?
    ensures var t := Removed(s, op, s.deletions[op].stage.seen, reply); RowsOk(t) && UploadsOk(t)
  {
    var t := Removed(s, op, s.deletions[op].stage.seen, reply);
    assert DeletionOk(s, op);
    forall k | k in t.rows ensures RowOk(t, k) && NotUploading(t, k) { assert RowOk(s, k) && NotUploading(s, k); }
    forall k | k in t.uploads ensures UploadOk(t, k) { assert UploadOk(s, k); }
  }

  lemma RemoveDisk(s: State, op: nat, reply: Reply)
    requires DiskOk(s) && op in s.deletions && s.deletions[op].stage.RemoveFile?
    ensures DiskOk(Removed(s, op, s.deletions[op].stage.seen, reply))
  {
    var seen := s.deletions[op].stage.seen;
    var t := Removed(s, op, seen, reply);
    forall path | path in t.disk ensures Accounted(t, path) {
      assert Accounted(s, path);
      if path != seen.path {
        if HasRow(s, path) { assert HasRow(t, path); }
        if k :| k in s.deletions && s.deletions[k].stage.RemoveFile? && s.deletions[k].stage.seen.path == path {
          assert k in t.deletions && t.deletions[k] == s.deletions[k];
        }
      }
    }
  }

  lemma CrashInv(s: State)
    requires Inv(s)
    ensures Inv(Apply(s, Crash))
  {
    var t := Apply(s, Crash);
    forall k | k in t.rows ensures RowOk(t, k) && NotUploading(t, k) { assert RowOk(s, k); }
    forall path | path in t.disk ensures Accounted(t, path) {
      assert Accounted(s, path);
      assert IsUnderWay(s, path) ==> path in UnderWay(s);
      if k :| k in s.rows && s.rows[k].path == path { assert t.rows[k].path == path; }
    }
  }

  // ---------- all runs ----------

  lemma UploadStepInv(s: State, st: Step)
    requires Inv(s) && Enabled(s, st) && (st.CallUpload? || st.Write? || st.Save? || st.Clear?)
    ensures Inv(Apply(s, st))
  {
    match st
    case CallUpload(f) =>
      StillApart(s.hist.known, f);
      CallInv(s, f);
    case Write(id, reply, part) => WriteInv(s, id, reply, part);
    case Save(id, reply) => SaveInv(s, id, reply);
    case Clear(id, reply) => ClearInv(s, id, reply);
  }

  lemma DeletionStepInv(s: State, st: Step)
    requires Inv(s) && Enabled(s, st) && (st.CallDelete? || st.Lock? || st.Read? || st.Drop? || st.Remove? || st.GiveUp?)
    ensures Inv(Apply(s, st))
  {
    match st
    case CallDelete(op, _, _) => DeletionMovesInv(s, Apply(s, st), op);
    case Lock(op) => DeletionMovesInv(s, Apply(s, st), op);
    case Read(op) => ReadInv(s, op);
    case Drop(op, reply) => DropInv(s, op, reply);
    case Remove(op, reply) => RemoveInv(s, op, reply);
    case GiveUp(op) => DeletionMovesInv(s, Apply(s, st), op);
  }

  lemma StepInv(s: State, st: Step)
    requires Inv(s) && Enabled(s, st)
    ensures Inv(Apply(s, st))
  {
    if st.Crash? { CrashInv(s); }
    else if st.CallUpload? || st.Write? || st.Save? || st.Clear? { UploadStepInv(s, st); }
    else { DeletionStepInv(s, st); }
  }

  lemma {:induction false} RunInv(s: State, run: seq<Step>)
    requires Inv(s) && Feasible(s, run)
    ensures Inv(Final(s, run))
    decreases |run|
  {
    if run != [] {
      StepInv(s, run[0]);
      RunInv(Apply(s, run[0]), run[1..]);
    }
  }

  ghost predicate Reachable(s: State) { exists s0, run :: Init(s0) && Feasible(s0, run) && s == Final(s0, run) }

  lemma ReachableInv(s: State)
    requires Reachable(s)
    ensures Inv(s) && LockOk(s)
  {
    var s0, run :| Init(s0) && Feasible(s0, run) && s == Final(s0, run);
    InitInv(s0);
    RunInv(s0, run);
    RunLock(s0, run);
  }

  // ---------- the theorems ----------

  /** At every moment of every run, crashes included: a file row has its physical file, of the recorded
      size, at its path, if and only if its upload's clean-up has not removed it under the row; otherwise
      there is no file at all; and no other row shares the path. */
  lemma RowsHaveFiles(s: State, id: FileId)
    requires Reachable(s) && id in s.rows
    ensures s.rows[id].id == id
    ensures id !in s.hist.bereft <==> s.rows[id].path in s.disk && s.disk[s.rows[id].path] == s.rows[id].size
    ensures id in s.hist.bereft <==> s.rows[id].path !in s.disk
    ensures forall k :: k in s.rows && s.rows[k].path == s.rows[id].path ==> k == id
  {
    ReachableInv(s);
    assert RowOk(s, id);
    forall k | k in s.rows && s.rows[k].path == s.rows[id].path ensures k == id { assert RowOk(s, k); }
  }

  /** A file is taken from under its row exactly when the clean-up of a failed upload takes effect while
      the row is there. */
  lemma BereftArises(s: State, st: Step, id: FileId)
    requires Reachable(s) && Enabled(s, st)
    ensures id in Apply(s, st).hist.bereft <==>
              id in s.hist.bereft || (st.Clear? && st.id == id && st.reply.TookEffect() && id in s.rows)
  {
    ReachableInv(s);
    assert st.Clear? ==> UploadOk(s, st.id);
    StepBereaves(s, st, id);
  }

  lemma StepBereaves(s: State, st: Step, id: FileId)
    requires Enabled(s, st) && (st.Clear? ==> s.uploads[st.id].file.id == st.id)
    ensures id in Apply(s, st).hist.bereft <==>
              id in s.hist.bereft || (st.Clear? && st.id == id && st.reply.TookEffect() && id in s.rows)
  {
    match st
    case Write(i, reply, part) =>
    case Save(i, reply) =>
    case Clear(_, _) =>
    case Drop(op, reply) => DropBereaves(s, op, s.deletions[op], s.deletions[op].stage.seen, reply);
    case Remove(_, _) =>
    case _ =>
  }

  lemma DropBereaves(s: State, op: nat, d: Deletion, seen: File, reply: Reply)
    ensures Dropped(s, op, d, seen, reply).hist.bereft == s.hist.bereft
  {
  }

  /** A physical file without a row belongs to an operation under way, or an operation left it behind. */
  lemma FilesAreAccounted(s: State, path: Path)
    requires Reachable(s) && path in s.disk && !HasRow(s, path)
    ensures IsUnderWay(s, path) || path in s.hist.leftovers
  {
    ReachableInv(s);
    assert Accounted(s, path);
  }

  /** The path that a step leaves behind, if any. */
  predicate LeavesBehind(s: State, st: Step, path: Path)
    requires Enabled(s, st)
  {
    match st
    case Crash => path in UnderWay(s)
    case Write(id, reply, part) => !reply.Done? && part.Some? && path == s.uploads[id].file.path
    case Clear(id, reply) => reply.Refused? && path == s.uploads[id].file.path
    case Drop(op, reply) => reply.Lost? && s.deletions[op].id in s.rows && path == s.deletions[op].stage.seen.path
    case Remove(op, reply) => reply.Refused? && path == s.deletions[op].stage.seen.path
    case _ => false
  }

  /** Leftovers come exactly from crashes that interrupt an upload or a deletion, from file writes that
      fail half-way, from row deletions whose confirmation is lost, and from failed removals. */
  lemma LeftoversArise(s: State, st: Step, path: Path)
    requires Enabled(s, st)
    ensures path in Apply(s, st).hist.leftovers <==> path in s.hist.leftovers || LeavesBehind(s, st, path)
  {
    match st
    case Write(id, reply, part) => WriteLeaves(s, s.uploads[id], reply, part);
    case Save(id, reply) => SaveLeaves(s, s.uploads[id], reply);
    case Clear(_, _) =>
    case Drop(op, reply) => DropLeaves(s, op, s.deletions[op], s.deletions[op].stage.seen, reply);
    case Remove(_, _) =>
    case _ =>
  }

  lemma WriteLeaves(s: State, u: Upload, reply: Reply, part: Option<nat>)
    ensures Written(s, u, reply, part).hist.leftovers ==
              if !reply.Done? && part.Some? then s.hist.leftovers + {u.file.path} else s.hist.leftovers
  {
  }

  lemma SaveLeaves(s: State, u: Upload, reply: Reply)
    ensures Saved(s, u, reply).hist.leftovers == s.hist.leftovers
  {
  }

  lemma DropLeaves(s: State, op: nat, d: Deletion, seen: File, reply: Reply)
    ensures Dropped(s, op, d, seen, reply).hist.leftovers ==
              if reply.Lost? && d.id in s.rows then s.hist.leftovers + {seen.path} else s.hist.leftovers
  {
  }

  /** The paths of the rows. */
  function RowPaths(rows: map<FileId, File>): set<Path> { set id | id in rows :: rows[id].path }

  lemma {:induction false} PathCount(rows: map<FileId, File>)
    requires forall i, j :: i in rows && j in rows && rows[i].path == rows[j].path ==> i == j
    ensures |RowPaths(rows)| == |rows.Keys|
    decreases |rows|
  {
    if rows != map[] {
      var k :| k in rows;
      var rest := rows - {k};
      assert rest.Keys == rows.Keys - {k};
      PathCount(rest);
      PathsMore(rows, k);
    }
  }

  lemma PathsMore(rows: map<FileId, File>, k: FileId)
    requires k in rows && forall i, j :: i in rows && j in rows && rows[i].path == rows[j].path ==> i == j
    ensures rows[k].path !in RowPaths(rows - {k}) && RowPaths(rows) == RowPaths(rows - {k}) + {rows[k].path}
  {
    var rest := rows - {k};
    forall path | path in RowPaths(rows) ensures path in RowPaths(rest) + {rows[k].path} {
      var i :| i in rows && rows[i].path == path;
      assert i != k ==> i in rest && rest[i].path == path;
    }
    forall path | path in RowPaths(rest) ensures path in RowPaths(rows) {
      var i :| i in rest && rest[i].path == path;
      assert i in rows && rows[i].path == path;
    }
  }

  predicate AtRest(s: State) {
    && s.uploads == map[] && s.deletions == map[] && s.hist.leftovers == {}
    && forall id :: id in s.rows ==> id !in s.hist.bereft
  }

  /** When no operation is under way, nothing was left behind and no row was bereft of its file, rows and files match one to one,
      with the recorded sizes. */
  lemma AtRestTheyMatch(s: State)
    requires Reachable(s) && AtRest(s)
    ensures s.disk.Keys == RowPaths(s.rows) && |s.disk.Keys| == |s.rows.Keys|
    ensures forall id :: id in s.rows ==> s.rows[id].path in s.disk && s.disk[s.rows[id].path] == s.rows[id].size
  {
    ReachableInv(s);
    AtRestApart(s);
    PathCount(s.rows);
    forall path | path in s.disk ensures path in RowPaths(s.rows) { assert Accounted(s, path); }
    forall id | id in s.rows ensures s.rows[id].path in s.disk && s.disk[s.rows[id].path] == s.rows[id].size { assert RowOk(s, id); }
  }

  lemma AtRestApart(s: State)
    requires RowsOk(s) && Apart(s.hist.known)
    ensures forall i, j :: i in s.rows && j in s.rows && s.rows[i].path == s.rows[j].path ==> i == j
  {
    forall i, j | i in s.rows && j in s.rows && s.rows[i].path == s.rows[j].path ensures i == j {
      assert RowOk(s, i) && RowOk(s, j);
    }
  }

  /** Among any deletions of one file, at most one ever deletes its row, and then no other will. */
  lemma {:induction false} RemovedAtMostOnce(s: State, run: seq<Step>, id: FileId)
    requires Inv(s) && Feasible(s, run)
    ensures Final(s, run).hist.removals[id] <= 1
    ensures s.hist.removals[id] == 1 ==> id !in Final(s, run).rows && Final(s, run).hist.removals[id] == 1
    decreases |run|
  {
    if run == [] {
      assert id in s.rows ==> RowOk(s, id);
    } else {
      StepInv(s, run[0]);
      RemovalsGrow(s, run[0], id);
      assert Apply(s, run[0]).hist.removals[id] <= 1;
      RemovedAtMostOnce(Apply(s, run[0]), run[1..], id);
    }
  }

  lemma RemovalsGrow(s: State, st: Step, id: FileId)
    requires Enabled(s, st)
    ensures s.hist.removals[id] <= Apply(s, st).hist.removals[id]
  {
    match st
    case Write(_, _, _) =>
    case Save(_, _) =>
    case Clear(_, _) =>
    case Drop(op, reply) => DropCounts(s, op, reply, id);
    case Remove(_, _) =>
    case _ =>
  }

  lemma DropCounts(s: State, op: nat, reply: Reply, id: FileId)
    requires op in s.deletions && s.deletions[op].stage.DropRow?
    ensures s.hist.removals[id] <= Dropped(s, op, s.deletions[op], s.deletions[op].stage.seen, reply).hist.removals[id]
  {
  }

  /** A file's row is removed only by a deletion that its owner has called, and the file it lies in, once stored,
      only by such a deletion or by its own upload's clean-up. */
  lemma OnlyTheOwnerDeletes(s: State, st: Step, id: FileId)
    requires Reachable(s) && Enabled(s, st) && id in s.rows
    ensures id !in Apply(s, st).rows ==>
              && st.Drop? && s.deletions[st.op].id == id && s.deletions[st.op].user == s.rows[id].owner
    ensures s.rows[id].path in s.disk && s.rows[id].path !in Apply(s, st).disk ==> st.Clear? && st.id == id
    ensures id in Apply(s, st).rows ==> Apply(s, st).rows[id] == s.rows[id]
  {
    ReachableInv(s);
    assert RowOk(s, id) && NotUploading(s, id);
    match st
    case Drop(op, reply) => DropOwner(s, op, reply, id);
    case Remove(op, reply) => RemoveOther(s, op, reply, id);
    case Write(i, reply, part) => WriteOther(s, i, reply, part, id);
    case Save(i, reply) => SaveOther(s, i, reply, id);
    case Clear(i, reply) => ClearOther(s, i, reply, id);
    case _ =>
  }

  predicate StandsBy(s: State, t: State, id: FileId)
    requires id in s.rows
  {
    id in t.rows && t.rows[id] == s.rows[id] && (s.rows[id].path in s.disk ==> s.rows[id].path in t.disk)
  }

  lemma DropOwner(s: State, op: nat, reply: Reply, id: FileId)
    requires DeletionsOk(s) && RowsOk(s) && op in s.deletions && s.deletions[op].stage.DropRow? && id in s.rows
    ensures var t := Dropped(s, op, s.deletions[op], s.deletions[op].stage.seen, reply);
      && t.disk == s.disk
      && (if id in t.rows then t.rows[id] == s.rows[id] else s.deletions[op].id == id && s.deletions[op].user == s.rows[id].owner)
  {
    assert DeletionOk(s, op) && RowOk(s, id);
  }

  lemma RemoveOther(s: State, op: nat, reply: Reply, id: FileId)
    requires Apart(s.hist.known) && DeletionsOk(s) && RowsOk(s) && op in s.deletions && s.deletions[op].stage.RemoveFile? && id in s.rows
    ensures StandsBy(s, Removed(s, op, s.deletions[op].stage.seen, reply), id)
  {
    assert DeletionOk(s, op) && RowOk(s, id);
  }

  lemma WriteOther(s: State, i: FileId, reply: Reply, part: Option<nat>, id: FileId)
    requires i in s.uploads && id in s.rows
    ensures StandsBy(s, Written(s, s.uploads[i], reply, part), id)
  {
  }

  lemma SaveOther(s: State, i: FileId, reply: Reply, id: FileId)
    requires UploadsOk(s) && i in s.uploads && s.uploads[i].stage.SaveRow? && id in s.rows
    ensures StandsBy(s, Saved(s, s.uploads[i], reply), id)
  {
    assert UploadOk(s, i);
  }

  lemma ClearOther(s: State, i: FileId, reply: Reply, id: FileId)
    requires Apart(s.hist.known) && UploadsOk(s) && RowsOk(s) && i in s.uploads && id in s.rows
    ensures var t := Cleared(s, s.uploads[i], reply); t.rows == s.rows && (i != id ==> StandsBy(s, t, id))
  {
    assert UploadOk(s, i) && RowOk(s, id);
  }

  /** With the lock, deletions of one file exclude each other from the row read to the file removal. */
  predicate LockOk(s: State) {
    s.guarded ==> forall op :: op in s.deletions && !s.deletions[op].stage.AwaitLock? ==>
      s.deletions[op].id in s.lock && s.lock[s.deletions[op].id] == op
  }

  lemma ReleaseLock(s: State, op: nat)
    requires LockOk(s)
    ensures LockOk(Release(s, op))
  {
  }

  lemma GotoLock(s: State, op: nat, d: Deletion, stage: DeleteStage)
    requires LockOk(s) && op in s.deletions && s.deletions[op] == d && !d.stage.AwaitLock?
    ensures LockOk(Goto(s, op, d, stage))
  {
  }

  lemma StepLock(s: State, st: Step)
    requires LockOk(s) && Enabled(s, st)
    ensures LockOk(Apply(s, st))
  {
    match st
    case GiveUp(op) => ReleaseLock(s, op);
    case Remove(op, _) => ReleaseLock(s, op);
    case Read(op) => GotoLock(s, op, s.deletions[op], DropRow(s.rows[s.deletions[op].id]));
    case Drop(op, _) =>
      ReleaseLock(s, op);
      GotoLock(s, op, s.deletions[op], RemoveFile(s.deletions[op].stage.seen));
    case _ =>
  }

  lemma {:induction false} RunLock(s: State, run: seq<Step>)
    requires LockOk(s) && Feasible(s, run)
    ensures LockOk(Final(s, run))
    decreases |run|
  {
    if run != [] {
      StepLock(s, run[0]);
      RunLock(Apply(s, run[0]), run[1..]);
    }
  }

  lemma DeletionsExclude(s: State, a: nat, b: nat)
    requires Reachable(s) && s.guarded && a in s.deletions && b in s.deletions && s.deletions[a].id == s.deletions[b].id
    requires !s.deletions[a].stage.AwaitLock? && !s.deletions[b].stage.AwaitLock?
    ensures a == b
  {
    ReachableInv(s);
  }

  // ---------- runs from a given state ----------

  /** Some run leads from state o to state s. */
  ghost predicate From(o: State, s: State) { exists run :: Feasible(o, run) && s == Final(o, run) }

  lemma FromItself(o: State)
    ensures From(o, o)
  {
    assert Feasible(o, []) && o == Final(o, []);
  }

  lemma {:induction false} FinalMore(s: State, run: seq<Step>, st: Step)
    requires Feasible(s, run) && Enabled(Final(s, run), st)
    ensures Feasible(s, run + [st]) && Final(s, run + [st]) == Apply(Final(s, run), st)
    decreases |run|
  {
    if run == [] {
      OneStep(s, st);
      assert run + [st] == [st];
    } else {
      FinalMore(Apply(s, run[0]), run[1..], st);
      FirstStep(s, run[0], run[1..] + [st]);
      assert run + [st] == [run[0]] + (run[1..] + [st]);
    }
  }

  lemma OneStep(s: State, st: Step)
    requires Enabled(s, st)
    ensures Feasible(s, [st]) && Final(s, [st]) == Apply(s, st)
  {
    FirstStep(s, st, []);
    assert [st] == [st] + [];
  }

  lemma FirstStep(s: State, st: Step, rest: seq<Step>)
    requires Enabled(s, st) && Feasible(Apply(s, st), rest)
    ensures Feasible(s, [st] + rest) && Final(s, [st] + rest) == Final(Apply(s, st), rest)
  {
    assert ([st] + rest)[0] == st && ([st] + rest)[1..] == rest;
  }

  lemma FromMore(o: State, s: State, st: Step)
    requires From(o, s) && Enabled(s, st)
    ensures From(o, Apply(s, st))
  {
    var run :| Feasible(o, run) && s == Final(o, run);
    FinalMore(o, run, st);
  }

  /** From any state, with any new file: if an insert takes effect but reports an error, the upload removes
      the file under the row. */
  lemma LostConfirmation(s: State, f: File) returns (t: State)
    requires f.id !in s.hist.known && Unclaimed(s.hist.known, f.path)
    ensures From(s, t) && f.id in t.rows && t.rows[f.id] == f && f.path !in t.disk && t.uploads == s.uploads - {f.id} && t.deletions == s.deletions
  {
    FromItself(s);
    FromMore(s, s, CallUpload(f));
    var s1 := Apply(s, CallUpload(f));
    FromMore(s, s1, Write(f.id, Done, None));
    var s2 := Apply(s1, Write(f.id, Done, None));
    FromMore(s, s2, Save(f.id, Lost));
    var s3 := Apply(s2, Save(f.id, Lost));
    FromMore(s, s3, Clear(f.id, Done));
    t := Apply(s3, Clear(f.id, Done));
  }

  function Start(guarded: bool): State {
    State(guarded, map[], map[], map[], map[], map[], History(map[], {}, {}, multiset{}))
  }

  lemma FromStart(guarded: bool, s: State)
    requires From(Start(guarded), s)
    ensures Reachable(s)
  {
    var run :| Feasible(Start(guarded), run) && s == Final(Start(guarded), run);
    assert Init(Start(guarded));
  }

  /** Such a run from the start, with any file: at its end nothing is under way, and a row has no file. */
  lemma RowWithoutFile(f: File) returns (s: State)
    ensures Reachable(s) && s.uploads == map[] && s.deletions == map[]
    ensures f.id in s.rows && s.rows[f.id] == f && f.path !in s.disk
  {
    s := LostConfirmation(Start(true), f);
    FromStart(true, s);
  }
}
