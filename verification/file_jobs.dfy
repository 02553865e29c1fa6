// The file jobs of xcom_core/src/io/log_writer.cpp against a file system in which every call
// may fail: whole-file replacement through a temporary, and streamed replacement.
module FileJobs {
  import opened Bytes

  type Path = seq<nat>

  // Wide characters of ".xcom." and ".tmp".
  const MARK: Path := [0x2E, 0x78, 0x63, 0x6F, 0x6D, 0x2E]
  const SUFFIX: Path := [0x2E, 0x74, 0x6D, 0x70]

  function Decimal(n: nat): Path { if n < 10 then [0x30 + n] else Decimal(n / 10) + [0x30 + n % 10] }

  // The temporary beside `path` for request or stream `id`.
  function Temporary(path: Path, id: nat): (t: Path)
    ensures t != path
  {
    var t := path + MARK + Decimal(id) + SUFFIX;
    assert |t| > |path|;
    t
  }

  datatype Status = OK | BUSY | IO | PARAM | NOT_OPEN

  // The streamed replacement in progress; its bytes are those of the open temporary.
  datatype Stream = Stream(id: nat, destination: Path, temporary: Path)

  datatype Disk = Disk(files: map<Path, seq<byte>>, stream: Option<Stream>)

  datatype Job =
    | AtomicWrite(path: Path, data: seq<byte>, request: nat)
    | StreamBegin(path: Path, id: nat)
    | StreamAppend(id: nat, data: seq<byte>)
    | StreamCommit(id: nat)
    | StreamAbort(id: nat)

  // One WriteFile call: failed, or a count that may be short, or zero.
  datatype Written = Written(ok: bool, count: nat)

  // What the operating system answers while one job runs.
  datatype Os = Os(named: bool, created: bool, writes: seq<Written>, flushed: bool, moved: bool, deleted: bool)

  // write_all: how far a run of WriteFile calls gets. A call not answered has failed.
  function Reach(size: nat, offset: nat, writes: seq<Written>): (r: nat)
    requires offset <= size
    ensures offset <= r <= size
    decreases |writes|
  {
    if offset == size || writes == [] || !writes[0].ok || writes[0].count == 0 then offset
    else Reach(size, offset + Min(writes[0].count, size - offset), writes[1..])
  }

  // The handle is opened without sharing, so an open temporary cannot be created or replaced.
  predicate IsOpen(d: Disk, path: Path) { d.stream.Some? && d.stream.value.temporary == path }

  function Delete(files: map<Path, seq<byte>>, path: Path, deleted: bool): map<Path, seq<byte>> {
    if deleted then files - {path} else files
  }

  function Content(files: map<Path, seq<byte>>, path: Path): Option<seq<byte>> {
    if path in files then Some(files[path]) else None
  }

  function Process(d: Disk, job: Job, os: Os): (Disk, Status) {
    match job
    case AtomicWrite(path, data, request) => DoAtomic(d, path, data, request, os)
    case StreamBegin(path, id) => DoBegin(d, path, id, os)
    case StreamAppend(id, data) => DoAppend(d, id, data, os)
    case StreamCommit(id) => DoCommit(d, id, os)
    case StreamAbort(id) => DoAbort(d, id, os)
  }

  function DoAtomic(d: Disk, path: Path, data: seq<byte>, request: nat, os: Os): (Disk, Status) {
    var temp := Temporary(path, request);
    if !os.named then (d, PARAM)
    else if !os.created || IsOpen(d, temp) then (d, IO)
    else
      var k := Reach(|data|, 0, os.writes);
      if k == |data| && os.flushed && os.moved && !IsOpen(d, path)
      then (d.(files := (d.files - {temp})[path := data]), OK)
      else (d.(files := Delete(d.files[temp := data[..k]], temp, os.deleted)), IO)
  }

  function DoBegin(d: Disk, path: Path, id: nat, os: Os): (Disk, Status) {
    if d.stream.Some? then (d, BUSY)
    else if !os.named then (d, PARAM)
    else if !os.created then (d, IO)
    else
      var temp := Temporary(path, id);
      (Disk(d.files[temp := []], Some(Stream(id, path, temp))), OK)
  }

  function Abort(d: Disk, os: Os): Disk
    requires d.stream.Some?
  {
    Disk(Delete(d.files, d.stream.value.temporary, os.deleted), None)
  }

  predicate Addressed(d: Disk, id: nat) { d.stream.Some? && d.stream.value.id == id }

  function DoAppend(d: Disk, id: nat, data: seq<byte>, os: Os): (Disk, Status) {
    if !Addressed(d, id) || d.stream.value.temporary !in d.files then (d, NOT_OPEN)
    else
      var temp, k := d.stream.value.temporary, Reach(|data|, 0, os.writes);
      var e := d.(files := d.files[temp := d.files[temp] + data[..k]]);
      if k == |data| then (e, OK) else (Abort(e, os), IO)
  }

  function DoCommit(d: Disk, id: nat, os: Os): (Disk, Status) {
    if !Addressed(d, id) || d.stream.value.temporary !in d.files then (d, NOT_OPEN)
    else
      var Stream(_, destination, temp) := d.stream.value;
      if os.flushed && os.moved then (Disk((d.files - {temp})[destination := d.files[temp]], None), OK)
      else (Abort(d, os), IO)
  }

  function DoAbort(d: Disk, id: nat, os: Os): (Disk, Status) {
    if d.stream.None? then (d, OK)
    else if !Addressed(d, id) then (d, NOT_OPEN)
    else (Abort(d, os), OK)
  }

  // ---- the disk a caller can predict from the reported statuses alone ---------------------

  datatype Report = Report(job: Job, status: Status)

  // The stream the caller believes in, with the bytes of its successful appends.
  datatype Belief = Belief(id: nat, destination: Path, bytes: seq<byte>)

  function BeliefAfter(b: Option<Belief>, r: Report): Option<Belief> {
    match r.job
    case AtomicWrite(_, _, _) => b
    case StreamBegin(path, id) => if r.status == OK then Some(Belief(id, path, [])) else b
    case StreamAppend(_, data) =>
      if b.None? || r.status == NOT_OPEN then b
      else if r.status == OK then Some(b.value.(bytes := b.value.bytes + data)) else None
    case StreamCommit(_) => if r.status == NOT_OPEN then b else None
    case StreamAbort(_) => if r.status == NOT_OPEN then b else None
  }

  // What `path` holds, going by the reports: only an OK atomic write or commit changes it.
  function Expected(content: Option<seq<byte>>, path: Path, b: Option<Belief>, r: Report): Option<seq<byte>> {
    match r.job
    case AtomicWrite(target, data, _) => if target == path && r.status == OK then Some(data) else content
    case StreamCommit(_) =>
      if b.Some? && b.value.destination == path && r.status == OK then Some(b.value.bytes) else content
    case _ => content
  }

  ghost predicate Agrees(d: Disk, b: Option<Belief>) {
    match d.stream
    case None => b.None?
    case Some(s) =>
      && s.temporary in d.files
      && s.temporary == Temporary(s.destination, s.id)
      && b == Some(Belief(s.id, s.destination, d.files[s.temporary]))
  }

  // The temporary a job works on, if it names one.
  predicate IsTemporaryOf(path: Path, job: Job, d: Disk) {
    || (job.AtomicWrite? && path == Temporary(job.path, job.request))
    || (job.StreamBegin? && path == Temporary(job.path, job.id))
    || IsOpen(d, path)
  }

  // One job: the reports stay a faithful description of the disk, and every file that is not
  // the job's temporary is as the reports say.
  lemma JobKeepsReportsTrue(d: Disk, b: Option<Belief>, job: Job, os: Os)
    requires Agrees(d, b)
    ensures
      var (e, status) := Process(d, job, os);
      && Agrees(e, BeliefAfter(b, Report(job, status)))
      && (forall path :: !IsTemporaryOf(path, job, d) ==>
            Content(e.files, path) == Expected(Content(d.files, path), path, b, Report(job, status)))
  {
    if job.StreamAppend? { assert job.data[..|job.data|] == job.data; }
  }

  // ---- runs ------------------------------------------------------------------------------------

  datatype Event = Event(job: Job, os: Os)

  // Disk and belief after a run of jobs.
  function RunJobs(d: Disk, b: Option<Belief>, events: seq<Event>): (Disk, Option<Belief>) {
    if events == [] then (d, b)
    else
      var (e, c) := RunJobs(d, b, events[..|events| - 1]);
      var last := events[|events| - 1];
      var r := Process(e, last.job, last.os);
      (r.0, BeliefAfter(c, Report(last.job, r.1)))
  }

  function ExpectedAfter(d: Disk, b: Option<Belief>, events: seq<Event>, path: Path): Option<seq<byte>> {
    if events == [] then Content(d.files, path)
    else
      var front := events[..|events| - 1];
      var (e, c) := RunJobs(d, b, front);
      var last := events[|events| - 1];
      Expected(ExpectedAfter(d, b, front, path), path, c, Report(last.job, Process(e, last.job, last.os).1))
  }

  // Not a temporary of any job of the run.
  ghost predicate NeverTemporary(path: Path, d: Disk, events: seq<Event>) {
    && !IsOpen(d, path)
    && forall i :: 0 <= i < |events| ==> !IsTemporaryOf(path, events[i].job, Disk(map[], None))
  }

  lemma {:induction false} ReportsDescribeTheDisk(d: Disk, b: Option<Belief>, events: seq<Event>, path: Path)
    requires Agrees(d, b) && NeverTemporary(path, d, events)
    ensures
      var (e, c) := RunJobs(d, b, events);
      && Agrees(e, c) && !IsOpen(e, path)
      && Content(e.files, path) == ExpectedAfter(d, b, events, path)
  {
    if events != [] {
      var front := events[..|events| - 1];
      ReportsDescribeTheDisk(d, b, front, path);
      var (e, c) := RunJobs(d, b, front);
      var last := events[|events| - 1];
      JobKeepsReportsTrue(e, c, last.job, last.os);
      StreamOpens(e, last.job, last.os, path);
    }
  }

  lemma StreamOpens(d: Disk, job: Job, os: Os, path: Path)
    requires !IsOpen(d, path) && !IsTemporaryOf(path, job, Disk(map[], None))
    ensures !IsOpen(Process(d, job, os).0, path) && !IsTemporaryOf(path, job, d)
  {}

  // All-or-nothing replacement: after any run of jobs, whatever calls failed or wrote short, a
  // file that was never used as a temporary holds what it held before the run, or exactly the
  // bytes of the last atomic write or commit on it that reported OK.
  lemma {:induction false} OnlyReportedSuccessReplaces(d: Disk, b: Option<Belief>, events: seq<Event>, path: Path)
    requires Agrees(d, b) && NeverTemporary(path, d, events)
    requires forall k :: 0 <= k < |events| ==> !Replaces(d, b, events, k, path)
    ensures Content(RunJobs(d, b, events).0.files, path) == Content(d.files, path)
  {
    if events != [] {
      var n := |events| - 1;
      forall k | 0 <= k < n ensures !Replaces(d, b, events[..n], k, path) {
        assert events[..n][..k] == events[..k];
        assert !Replaces(d, b, events, k, path);
      }
      OnlyReportedSuccessReplaces(d, b, events[..n], path);
      ReportsDescribeTheDisk(d, b, events[..n], path);
      ReportsDescribeTheDisk(d, b, events, path);
      assert !Replaces(d, b, events, n, path);
    }
  }

  // Event k reports OK for an atomic write to `path`, or for committing a stream begun on it.
  ghost predicate Replaces(d: Disk, b: Option<Belief>, events: seq<Event>, k: nat, path: Path)
    requires k < |events|
  {
    var (e, c) := RunJobs(d, b, events[..k]);
    var job := events[k].job;
    && Process(e, job, events[k].os).1 == OK
    && ((job.AtomicWrite? && job.path == path)
        || (job.StreamCommit? && c.Some? && c.value.destination == path))
  }

  // ---- success -----------------------------------------------------------------------------------

  // Bytes a run of WriteFile calls takes before the first that fails or takes none.
  function Taken(writes: seq<Written>): nat {
    if writes == [] || !writes[0].ok || writes[0].count == 0 then 0 else writes[0].count + Taken(writes[1..])
  }

  lemma {:induction false} ReachIsTaken(size: nat, offset: nat, writes: seq<Written>)
    requires offset <= size
    ensures Reach(size, offset, writes) == Min(size, offset + Taken(writes))
    decreases |writes|
  {
    if offset < size && writes != [] && writes[0].ok && writes[0].count > 0 {
      ReachIsTaken(size, offset + Min(writes[0].count, size - offset), writes[1..]);
    }
  }

  // An atomic write reports OK exactly if every call it needs succeeds, and no stream in
  // progress has its temporary or its target open; then the file holds the data and no
  // temporary is left.
  lemma AtomicSucceedsIff(d: Disk, path: Path, data: seq<byte>, request: nat, os: Os)
    ensures
      var (e, status) := Process(d, AtomicWrite(path, data, request), os);
      var temp := Temporary(path, request);
      && (status == OK <==>
            && os.named && os.created && Taken(os.writes) >= |data| && os.flushed && os.moved
            && !IsOpen(d, temp) && !IsOpen(d, path))
      && (status == OK ==> Content(e.files, path) == Some(data) && temp !in e.files && e.stream == d.stream)
  {
    ReachIsTaken(|data|, 0, os.writes);
  }

  // Every job of the run reports OK, and together they get from d to e.
  ghost predicate AllOk(d: Disk, events: seq<Event>, e: Disk)
    decreases |events|
  {
    if events == [] then e == d
    else
      var r := Process(d, events[0].job, events[0].os);
      r.1 == OK && AllOk(r.0, events[1..], e)
  }

  // A piece of stream `id` that the file system takes whole.
  predicate TakenPiece(ev: Event, id: nat) {
    ev.job.StreamAppend? && ev.job.id == id && Taken(ev.os.writes) >= |ev.job.data|
  }

  function Pieces(events: seq<Event>): seq<byte> {
    if events == [] then []
    else (if events[0].job.StreamAppend? then events[0].job.data else []) + Pieces(events[1..])
  }

  lemma {:induction false} PiecesAppend(d: Disk, events: seq<Event>, last: seq<Event>, e: Disk)
    requires d.stream.Some? && d.stream.value.temporary in d.files
    requires forall i :: 0 <= i < |events| ==> TakenPiece(events[i], d.stream.value.id)
    requires
      var temp := d.stream.value.temporary;
      AllOk(d.(files := d.files[temp := d.files[temp] + Pieces(events)]), last, e)
    ensures AllOk(d, events + last, e)
    decreases |events|
  {
    var temp := d.stream.value.temporary;
    if events == [] {
      assert events + last == last && d.files[temp] + [] == d.files[temp];
      assert d.files[temp := d.files[temp]] == d.files;
    } else {
      var data := events[0].job.data;
      ReachIsTaken(|data|, 0, events[0].os.writes);
      assert data[..|data|] == data && (events + last)[1..] == events[1..] + last;
      var m := d.(files := d.files[temp := d.files[temp] + data]);
      assert Process(d, events[0].job, events[0].os) == (m, OK);
      assert d.files[temp] + Pieces(events) == m.files[temp] + Pieces(events[1..]);
      assert m.files[temp := m.files[temp] + Pieces(events[1..])] == d.files[temp := d.files[temp] + Pieces(events)];
      PiecesAppend(m, events[1..], last, e);
    }
  }

  // A streamed replacement whose calls succeed reports OK throughout, and afterwards the
  // destination holds the pieces in order and no temporary is left.
  lemma StreamSucceeds(d: Disk, path: Path, id: nat, osBegin: Os, pieces: seq<Event>, osCommit: Os) returns (e: Disk)
    requires d.stream.None? && osBegin.named && osBegin.created && osCommit.flushed && osCommit.moved
    requires forall i :: 0 <= i < |pieces| ==> TakenPiece(pieces[i], id)
    ensures AllOk(d, [Event(StreamBegin(path, id), osBegin)] + pieces + [Event(StreamCommit(id), osCommit)], e)
    ensures Content(e.files, path) == Some(Pieces(pieces)) && Temporary(path, id) !in e.files && e.stream.None?
  {
    var begin, commit := Event(StreamBegin(path, id), osBegin), Event(StreamCommit(id), osCommit);
    var temp := Temporary(path, id);
    var a := Process(d, begin.job, begin.os).0;
    assert a == Disk(d.files[temp := []], Some(Stream(id, path, temp)));
    var b := a.(files := a.files[temp := a.files[temp] + Pieces(pieces)]);
    assert [] + Pieces(pieces) == Pieces(pieces);
    e := Process(b, commit.job, commit.os).0;
    assert AllOk(b, [commit], e) by { assert [commit][1..] == []; }
    PiecesAppend(a, pieces, [commit], e);
    assert ([begin] + pieces + [commit])[1..] == pieces + [commit];
  }

  // ---- the class -----------------------------------------------------------------------------------

  class Writer {
    var files: map<Path, seq<byte>>
    var active: bool
    var id: nat
    var destination: Path
    var temporary: Path

    ghost function View(): Disk
      reads this
    {
      Disk(files, if active then Some(Stream(id, destination, temporary)) else None)
    }

    constructor ()
      ensures View() == Disk(map[], None)
    {
      files, active := map[], false;
      id, destination, temporary := 0, [], [];
    }

    // write_all: retry the unwritten rest until everything is out or a call fails.
    method WriteAll(path: Path, data: seq<byte>, writes: seq<Written>) returns (status: Status)
      requires path in files
      modifies this`files
      ensures files == old(files)[path := old(files[path]) + data[..Reach(|data|, 0, writes)]]
      ensures status == (if Reach(|data|, 0, writes) == |data| then OK else IO)
    {
      var offset, calls := 0, 0;
      ghost var before := files[path];
      assert before + data[..0] == before && files == files[path := before];
      while offset < |data|
        invariant 0 <= offset <= |data| && 0 <= calls <= |writes| && path in files
        invariant files == old(files)[path := files[path]] && files[path] == before + data[..offset]
        invariant Reach(|data|, 0, writes) == Reach(|data|, offset, writes[calls..])
        decreases |writes| - calls
      {
        if calls == |writes| || !writes[calls].ok || writes[calls].count == 0 {
          return IO;
        }
        var count := if writes[calls].count < |data| - offset then writes[calls].count else |data| - offset;
        assert before + data[..offset + count] == before + data[..offset] + data[offset..offset + count];
        files := files[path := files[path] + data[offset..offset + count]];
        offset, calls := offset + count, calls + 1;
      }
      status := OK;
    }

    method Remove(path: Path, deleted: bool)
      modifies this`files
      ensures files == Delete(old(files), path, deleted)
    {
      if deleted { files := files - {path}; }
    }

    // process_atomic
    method Atomic(path: Path, data: seq<byte>, request: nat, os: Os) returns (status: Status)
      modifies this`files
      ensures (View(), status) == DoAtomic(old(View()), path, data, request, os)
    {
      if !os.named { return PARAM; }
      var temp := Temporary(path, request);
      if !os.created || (active && temporary == temp) { return IO; }
      files := files[temp := []];
      status := WriteAll(temp, data, os.writes);
      ghost var k := Reach(|data|, 0, os.writes);
      assert [] + data[..k] == data[..k] && data[..|data|] == data;
      assert files == old(files)[temp := data[..k]];
      if status != OK || !os.flushed || !os.moved || (active && temporary == path) {
        Remove(temp, os.deleted);
        return IO;
      }
      assert files - {temp} == old(files) - {temp};
      files := (files - {temp})[path := files[temp]];
    }

    method Begin(path: Path, streamId: nat, os: Os) returns (status: Status)
      modifies this
      ensures (View(), status) == DoBegin(old(View()), path, streamId, os)
    {
      if active { return BUSY; }
      if !os.named { return PARAM; }
      if !os.created { return IO; }
      var temp := Temporary(path, streamId);
      files := files[temp := []];
      active, id, destination, temporary := true, streamId, path, temp;
      status := OK;
    }

    method Reset(os: Os)
      requires active
      modifies this
      ensures View() == Abort(old(View()), os)
    {
      active := false;
      Remove(temporary, os.deleted);
    }

    method Append(streamId: nat, data: seq<byte>, os: Os) returns (status: Status)
      requires active ==> temporary in files
      modifies this
      ensures (View(), status) == DoAppend(old(View()), streamId, data, os)
    {
      if !active || id != streamId { return NOT_OPEN; }
      status := WriteAll(temporary, data, os.writes);
      if status != OK { Reset(os); }
    }

    // AtomicStream::commit, then its destructor.
    method Commit(streamId: nat, os: Os) returns (status: Status)
      requires active ==> temporary in files && temporary != destination
      modifies this
      ensures (View(), status) == DoCommit(old(View()), streamId, os)
    {
      if !active || id != streamId { return NOT_OPEN; }
      if !os.flushed || !os.moved {
        Reset(os);
        return IO;
      }
      files := (files - {temporary})[destination := files[temporary]];
      active := false;
      status := OK;
    }

    method Cancel(streamId: nat, os: Os) returns (status: Status)
      modifies this
      ensures (View(), status) == DoAbort(old(View()), streamId, os)
    {
      if !active { return OK; }
      if id != streamId { return NOT_OPEN; }
      Reset(os);
      status := OK;
    }
  }
}
