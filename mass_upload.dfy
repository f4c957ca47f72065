/** The admin mass-upload panel: dropped audio files queue up as pending; an
    upload (with a signed-in user and a non-empty queue) sends every pending
    file to storage and then to the songs table, marking it success or error.
    The storage and database calls are foreign: their outcome for each file is an
    input, and the rows the panel asks the database to insert are recorded. */
module MassUpload {
  import opened Wrappers
  import opened Strings

  datatype Status = Pending | Success | Error

  /** A file as the drop zone hands it over. */
  datatype DroppedFile = DroppedFile(name: string, lastModified: int)

  /** A queue entry. A dropped entry is the `File` itself, with `id` and
      `status` added as own properties by `Object.assign`. An entry an upload has
      processed is `{ ...file, status }`: the spread copies own properties only,
      and `name` and `lastModified` are getters of `File`, so such an entry
      holds its `id` and `status` alone (`file == None`). */
  datatype UploadFile = UploadFile(file: Option<DroppedFile>, id: string, status: Status)

  /** What the backend does with one file: the clock reading used in its path,
      whether the storage upload succeeded, the public URL it reports, and
      whether the database insert succeeded. */
  datatype Outcome = Outcome(timestamp: int, storageOk: bool, publicUrl: string, dbOk: bool)

  /** The record sent to `supabase.from('songs').insert`. */
  datatype SongRow = SongRow(
    title: string,
    artist: string,
    storagePath: string,
    sourceUrl: string,
    uploadedBy: string,
    sourceType: string)

  /** Why `handleUpload` stopped, or that it completed. */
  datatype Notice = AuthenticationError | NoFilesSelected | UploadComplete

  // ---------------------------------------------------------------------
  // Queue entries

  /** `${file.name}-${file.lastModified}`. */
  function FileId(name: string, lastModified: int): (id: string)
    ensures |id| > |name| + 1 && id[..|name|] == name && id[|name|] == '-'
  {
    name + "-" + IntToString(lastModified)
  }

  /** The id determines the name when the timestamps agree, and the timestamp
      when the names agree. */
  lemma FileIdInjective(n1: string, m1: int, n2: string, m2: int)
    requires FileId(n1, m1) == FileId(n2, m2)
    ensures m1 == m2 ==> n1 == n2
    ensures n1 == n2 ==> m1 == m2
  {
    if m1 == m2 {
      assert n1 == FileId(n1, m1)[..|n1|];
      assert |n1| == |n2|;
    }
    if n1 == n2 {
      var k := |n1| + 1;
      assert FileId(n1, m1)[k..] == IntToString(m1);
      assert FileId(n2, m2)[k..] == IntToString(m2);
      ParseIntOfIntToString(m1);
      ParseIntOfIntToString(m2);
    }
  }

  /** A pending entry still is a `File`, so the upload can read its name. */
  predicate Uploadable(e: UploadFile)
  {
    e.status == Pending ==> e.file.Some?
  }

  predicate AllUploadable(files: seq<UploadFile>)
  {
    forall i :: 0 <= i < |files| ==> Uploadable(files[i])
  }

  /** `{file.name}` in the list: `undefined` renders as nothing. */
  function ShownName(e: UploadFile): (name: string)
    ensures e.file.Some? ==> name == e.file.value.name
    ensures e.file.None? ==> name == ""
  {
    if e.file.Some? then e.file.value.name else ""
  }

  /** `acceptedFiles.map(...)`: each dropped file with its id, pending. */
  function NewFiles(accepted: seq<DroppedFile>): (r: seq<UploadFile>)
    ensures |r| == |accepted|
    ensures forall i :: 0 <= i < |r| ==>
      r[i].file == Some(accepted[i])
      && r[i].id == FileId(accepted[i].name, accepted[i].lastModified) && r[i].status == Pending
    ensures AllUploadable(r)
  {
    seq(|accepted|, i requires 0 <= i < |accepted| =>
      UploadFile(Some(accepted[i]), FileId(accepted[i].name, accepted[i].lastModified), Pending))
  }

  // ---------------------------------------------------------------------
  // Titles

  /** `name.split('.').slice(0, -1).join('.')`. */
  function TitleOf(name: string): string
  {
    var parts := Split(name, '.');
    Join(parts[..|parts| - 1], '.')
  }

  /** Of two cuts of one string at a separator, the one with the longer tail
      has a separator in its tail. */
  lemma LongerTailHasSeparator(x: string, l: string, b: string, e: string, c: char)
    requires x + [c] + l == b + [c] + e
    ensures |l| < |e| ==> c in e
  {
    var s := x + [c] + l;
    if |l| < |e| {
      assert e[|e| - |l| - 1] == s[|s| - |l| - 1];
    }
  }

  /** Two ways of cutting a string at a separator, each leaving no separator in
      the tail, are the same cut. */
  lemma LastSeparatorUnique(x: string, l: string, b: string, e: string, c: char)
    requires x + [c] + l == b + [c] + e
    requires c !in l && c !in e
    ensures x == b && l == e
  {
    var s := x + [c] + l;
    LongerTailHasSeparator(x, l, b, e, c);
    LongerTailHasSeparator(b, e, x, l, c);
    assert x == s[..|x|] == b;
    assert l == s[|x| + 1..] == e;
  }

  /** The inserted title drops the last dot-extension: for `base.ext` with no dot
      in `ext` it is `base` (so "a.b.mp3" gives "a.b"). */
  lemma TitleDropsExtension(base: string, ext: string)
    requires '.' !in ext
    ensures TitleOf(base + "." + ext) == base
  {
    var name := base + "." + ext;
    var parts := Split(name, '.');
    assert name[|base|] == '.';
    JoinInit(parts, '.');
    var init := parts[..|parts| - 1];
    LastSeparatorUnique(Join(init, '.'), parts[|parts| - 1], base, ext, '.');
  }

  /** A name without a dot gives the empty title. */
  lemma TitleWithoutDot(name: string)
    requires '.' !in name
    ensures TitleOf(name) == ""
  {
    SplitWithoutSeparator(name, '.');
  }

  /** The example from the panel's own file types. */
  lemma TitleExample()
    ensures TitleOf("a.b.mp3") == "a.b"
  {
    TitleDropsExtension("a.b", "mp3");
    assert "a.b" + "." + "mp3" == "a.b.mp3";
  }

  // ---------------------------------------------------------------------
  // Processing one file

  /** `${user.id}/${Date.now()}-${file.name}`. */
  function StoragePath(userId: string, timestamp: int, name: string): (path: string)
    ensures |path| > |userId| + |name| && path[..|userId|] == userId && path[|userId|] == '/'
    ensures path[|path| - |name|..] == name
  {
    userId + "/" + IntToString(timestamp) + "-" + name
  }

  /** The row inserted for an uploaded file. */
  function RowFor(file: DroppedFile, userId: string, o: Outcome): SongRow
  {
    SongRow(TitleOf(file.name), "Unknown Artist", StoragePath(userId, o.timestamp, file.name),
      o.publicUrl, userId, "upload")
  }

  /** One `files.map` callback: non-pending files come back as they are; a pending
      file fails on a storage error (no insert is attempted) and otherwise asks for
      its row to be inserted, succeeding only when the insert does. */
  function ProcessFile(entry: UploadFile, userId: string, o: Outcome): (r: (UploadFile, Option<SongRow>))
    requires Uploadable(entry)
    ensures entry.status != Pending ==> r == (entry, None)
    ensures entry.status == Pending ==>
      r.0 == UploadFile(None, entry.id, if o.storageOk && o.dbOk then Success else Error)
      && (r.1.Some? <==> o.storageOk)
      && (r.1.Some? ==> r.1.value == RowFor(entry.file.value, userId, o))
    ensures Uploadable(r.0) && r.0.status != Pending
  {
    if entry.status != Pending then (entry, None)
    else if !o.storageOk then (UploadFile(None, entry.id, Error), None)
    else
      var row := RowFor(entry.file.value, userId, o);
      if !o.dbOk then (UploadFile(None, entry.id, Error), Some(row))
      else (UploadFile(None, entry.id, Success), Some(row))
  }

  /** The queue after an upload: `Promise.all` of the callbacks, in queue order. */
  function ProcessedFiles(files: seq<UploadFile>, userId: string, outcomes: seq<Outcome>): (r: seq<UploadFile>)
    requires |outcomes| == |files| && AllUploadable(files)
  {
    seq(|files|, i requires 0 <= i < |files| => ProcessFile(files[i], userId, outcomes[i]).0)
  }

  /** The rows the upload asks the database to insert, in queue order. */
  function InsertsOf(files: seq<UploadFile>, userId: string, outcomes: seq<Outcome>): (rows: seq<SongRow>)
    requires |outcomes| == |files| && AllUploadable(files)
    ensures |rows| <= |files|
  {
    if files == [] then []
    else
      var n := |files| - 1;
      var row := ProcessFile(files[n], userId, outcomes[n]).1;
      InsertsOf(files[..n], userId, outcomes[..n]) + (if row.Some? then [row.value] else [])
  }

  /** Processing one more file extends the processed queue by that file. */
  lemma ProcessedFilesSnoc(files: seq<UploadFile>, userId: string, outcomes: seq<Outcome>, i: int)
    requires |outcomes| == |files| && AllUploadable(files) && 0 <= i < |files|
    ensures ProcessedFiles(files[..i + 1], userId, outcomes[..i + 1])
      == ProcessedFiles(files[..i], userId, outcomes[..i]) + [ProcessFile(files[i], userId, outcomes[i]).0]
  {
    var a := ProcessedFiles(files[..i + 1], userId, outcomes[..i + 1]);
    var b := ProcessedFiles(files[..i], userId, outcomes[..i]) + [ProcessFile(files[i], userId, outcomes[i]).0];
    assert forall k :: 0 <= k < |a| ==> a[k] == b[k];
  }

  /** Processing one more file adds its row, if any, to the inserts. */
  lemma InsertsOfSnoc(files: seq<UploadFile>, userId: string, outcomes: seq<Outcome>, i: int)
    requires |outcomes| == |files| && AllUploadable(files) && 0 <= i < |files|
    ensures var row := ProcessFile(files[i], userId, outcomes[i]).1;
      InsertsOf(files[..i + 1], userId, outcomes[..i + 1])
      == InsertsOf(files[..i], userId, outcomes[..i]) + (if row.Some? then [row.value] else [])
  {
    assert files[..i + 1][..i] == files[..i] && outcomes[..i + 1][..i] == outcomes[..i];
    assert files[..i + 1][i] == files[i] && outcomes[..i + 1][i] == outcomes[i];
  }

  /** An upload keeps the queue's length, order and ids; leaves every
      non-pending entry alone; turns every pending entry into success exactly
      when both backend steps succeed, error otherwise; and leaves each entry
      it processed without the `File`'s name and timestamp. */
  lemma ProcessedFilesSpec(files: seq<UploadFile>, userId: string, outcomes: seq<Outcome>)
    requires |outcomes| == |files| && AllUploadable(files)
    ensures var r := ProcessedFiles(files, userId, outcomes);
      |r| == |files| && AllUploadable(r)
      && (forall i :: 0 <= i < |r| ==> r[i].id == files[i].id && r[i].status != Pending)
      && (forall i :: 0 <= i < |r| && files[i].status != Pending ==> r[i] == files[i])
      && (forall i :: 0 <= i < |r| && files[i].status == Pending ==>
           (r[i].status == Success <==> outcomes[i].storageOk && outcomes[i].dbOk)
           && r[i].file.None? && ShownName(r[i]) == "")
  {
  }

  /** A dropped file is listed under its name; once uploaded, successfully, the
      entry that replaces it is listed with no name. */
  lemma UploadedEntryLosesName(f: DroppedFile, userId: string, o: Outcome)
    requires o.storageOk && o.dbOk
    ensures ShownName(NewFiles([f])[0]) == f.name
    ensures ProcessedFiles(NewFiles([f]), userId, [o]) == [UploadFile(None, FileId(f.name, f.lastModified), Success)]
    ensures ShownName(ProcessedFiles(NewFiles([f]), userId, [o])[0]) == ""
  {
    var r := ProcessedFiles(NewFiles([f]), userId, [o]);
    assert r[0] == UploadFile(None, FileId(f.name, f.lastModified), Success);
  }

  /** An upload over a queue with no pending file changes nothing and inserts nothing. */
  lemma {:induction false} NothingPendingNothingChanges(files: seq<UploadFile>, userId: string, outcomes: seq<Outcome>)
    requires |outcomes| == |files| && AllUploadable(files)
    requires forall i :: 0 <= i < |files| ==> files[i].status != Pending
    ensures ProcessedFiles(files, userId, outcomes) == files
    ensures InsertsOf(files, userId, outcomes) == []
  {
    if files != [] {
      var n := |files| - 1;
      NothingPendingNothingChanges(files[..n], userId, outcomes[..n]);
    }
  }

  /** Every inserted row was asked for by a pending file whose storage upload
      succeeded, and carries the fixed artist and source type. */
  lemma {:induction false} InsertsComeFromStoredFiles(files: seq<UploadFile>, userId: string, outcomes: seq<Outcome>)
    requires |outcomes| == |files| && AllUploadable(files)
    ensures forall row :: row in InsertsOf(files, userId, outcomes) ==>
      row.artist == "Unknown Artist" && row.sourceType == "upload" && row.uploadedBy == userId
      && (exists i :: 0 <= i < |files| && files[i].status == Pending && files[i].file.Some? && outcomes[i].storageOk &&
            row == RowFor(files[i].file.value, userId, outcomes[i]))
  {
    if files != [] {
      var n := |files| - 1;
      InsertsComeFromStoredFiles(files[..n], userId, outcomes[..n]);
      forall row | row in InsertsOf(files, userId, outcomes)
        ensures exists i ::
                  0 <= i < |files| && files[i].status == Pending && files[i].file.Some? && outcomes[i].storageOk &&
                  row == RowFor(files[i].file.value, userId, outcomes[i])
      {
        if row in InsertsOf(files[..n], userId, outcomes[..n]) {
          var i :| 0 <= i < n && files[..n][i].status == Pending && files[..n][i].file.Some? && outcomes[..n][i].storageOk
            && row == RowFor(files[..n][i].file.value, userId, outcomes[..n][i]);
          assert files[i] == files[..n][i] && outcomes[i] == outcomes[..n][i];
        } else {
          assert files[n].status == Pending && files[n].file.Some? && outcomes[n].storageOk
            && row == RowFor(files[n].file.value, userId, outcomes[n]);
        }
      }
    }
  }

  // ---------------------------------------------------------------------
  // The panel state

  class Uploader {
    var files: seq<UploadFile>
    var uploading: bool
    /** The rows asked of the database so far. */
    var inserts: seq<SongRow>

    /** Every pending entry in the queue is still a dropped `File`. */
    predicate Valid()
      reads this
    {
      AllUploadable(files)
    }

    constructor ()
      ensures files == [] && !uploading && inserts == [] && Valid()
    {
      files, uploading, inserts := [], false, [];
    }

    /** `onDrop`: the accepted files join the end of the queue, pending. The
        drop zone stays active during an upload, so this can run between
        `BeginUpload` and `FinishUpload`. */
    method OnDrop(accepted: seq<DroppedFile>)
      requires Valid()
      modifies this`files
      ensures files == old(files) + NewFiles(accepted) && Valid()
    {
      files := files + NewFiles(accepted);
    }

    /** `handleUpload` up to its first `await`, with `user` the signed-in user's
        id (if any): it stops with a notice without a user or with an empty
        queue; otherwise it sets `uploading` and its callbacks work on the queue
        as it is now, the returned `snapshot`. */
    method BeginUpload(user: Option<string>) returns (stop: Option<Notice>, snapshot: seq<UploadFile>)
      modifies this`uploading
      ensures user.None? ==> stop == Some(AuthenticationError) && uploading == old(uploading)
      ensures user.Some? && files == [] ==> stop == Some(NoFilesSelected) && uploading == old(uploading)
      ensures user.Some? && files != [] ==> stop == None && uploading && snapshot == files
    {
      snapshot := files;
      if user.None? {
        return Some(AuthenticationError), snapshot;
      }
      if |files| == 0 {
        return Some(NoFilesSelected), snapshot;
      }
      uploading := true;
      stop := None;
    }

    /** The rest of `handleUpload`: `outcomes[i]` is what the backend does with
        the i-th entry of the snapshot. The parallel callbacks are taken one after
        another in snapshot order, and `setFiles(results)` replaces the queue by
        the processed snapshot, whatever was dropped in the meantime. */
    method FinishUpload(userId: string, snapshot: seq<UploadFile>, outcomes: seq<Outcome>) returns (notice: Notice)
      requires |outcomes| == |snapshot| && AllUploadable(snapshot)
      modifies this`files, this`uploading, this`inserts
      ensures notice == UploadComplete && !uploading && Valid()
      ensures files == ProcessedFiles(snapshot, userId, outcomes)
      ensures inserts == old(inserts) + InsertsOf(snapshot, userId, outcomes)
    {
      var results: seq<UploadFile> := [];
      var rows: seq<SongRow> := [];
      var i := 0;
      while i < |snapshot|
        invariant 0 <= i <= |snapshot|
        invariant results == ProcessedFiles(snapshot[..i], userId, outcomes[..i])
        invariant rows == InsertsOf(snapshot[..i], userId, outcomes[..i])
        invariant inserts == old(inserts)
      {
        var (file, row) := ProcessFile(snapshot[i], userId, outcomes[i]);
        ProcessedFilesSnoc(snapshot, userId, outcomes, i);
        InsertsOfSnoc(snapshot, userId, outcomes, i);
        results := results + [file];
        if row.Some? {
          rows := rows + [row.value];
        }
        i := i + 1;
      }
      assert snapshot[..i] == snapshot && outcomes[..i] == outcomes;
      ProcessedFilesSpec(snapshot, userId, outcomes);
      files := results;
      inserts := inserts + rows;
      uploading := false;
      notice := UploadComplete;
    }

    /** `handleUpload` with nothing dropped while the backend works. */
    method HandleUpload(user: Option<string>, outcomes: seq<Outcome>) returns (notice: Notice)
      requires Valid() && |outcomes| == |files|
      modifies this`files, this`uploading, this`inserts
      ensures user.None? ==> notice == AuthenticationError
      ensures user.Some? && old(files) == [] ==> notice == NoFilesSelected
      ensures notice != UploadComplete ==>
        files == old(files) && uploading == old(uploading) && inserts == old(inserts)
      ensures user.Some? && old(files) != [] ==>
        notice == UploadComplete && !uploading
        && files == ProcessedFiles(old(files), user.value, outcomes)
        && inserts == old(inserts) + InsertsOf(old(files), user.value, outcomes)
      ensures Valid()
    {
      var stop, snapshot := BeginUpload(user);
      if stop.Some? {
        return stop.value;
      }
      notice := FinishUpload(user.value, snapshot, outcomes);
    }

    /** The button's label. */
    function ButtonLabel(): (text: string)
      reads this
      ensures uploading ==> text == "Uploading..."
      ensures !uploading ==> text == "Upload " + NatToString(|files|) + " File(s)"
    {
      if uploading then "Uploading..." else "Upload " + NatToString(|files|) + " File(s)"
    }
  }

  /** A file dropped while an upload is in flight joins the queue, and then
      vanishes when the upload finishes: the queue becomes the processed
      snapshot, which holds only the file dropped before. */
  method DropDuringUploadIsLost(first: DroppedFile, late: DroppedFile, userId: string, o: Outcome)
    returns (lateQueued: bool, queue: seq<UploadFile>)
    ensures lateQueued
    ensures |queue| == 1 && queue[0].id == FileId(first.name, first.lastModified)
    ensures FileId(late.name, late.lastModified) != FileId(first.name, first.lastModified) ==>
      forall e :: e in queue ==> e.id != FileId(late.name, late.lastModified)
  {
    var panel := new Uploader();
    panel.OnDrop([first]);
    var stop, snapshot := panel.BeginUpload(Some(userId));
    panel.OnDrop([late]);
    lateQueued := |panel.files| == 2 && panel.files[1].id == FileId(late.name, late.lastModified);
    var notice := panel.FinishUpload(userId, snapshot, [o]);
    queue := panel.files;
    ProcessedFilesSpec(snapshot, userId, [o]);
  }
}
