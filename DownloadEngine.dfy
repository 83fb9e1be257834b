/**
 * The download engine of utils/download.js: the size probe (`checkFileSize`), the
 * size guard, and `downloadFile`, which creates the base directory when it is
 * missing and writes the streamed body to `basePath/filename`.
 *
 * The network is an input: the HEAD request's outcome is a `Head`, the streaming
 * GET's outcome a `Transfer`. The filesystem is an abstract state, a set of
 * directories and a map from paths to file contents, held by the `FileSystem` class.
 */
module DownloadEngine {
  import opened JsText

  /** `MAX_FILE_SIZE = 35 * 1024 * 1024`, in bytes. */
  const MAX_FILE_SIZE: int := 35 * 1024 * 1024

  /** The default `basePath` of `downloadFile` and of every adapter. */
  const DEFAULT_BASE_PATH: string := "resultdownload_preniv"

  type Blob = seq<bv8>

  /** Outcome of `axios.head(url)`: it throws, or it yields the `content-length` header as
      `parseInt` reads it, where None stands for NaN (a missing or non-numeric header). */
  datatype Head = HeadThrew | HeadOk(contentLength: Option<int>)

  /** Outcome of the streaming GET piped into the write stream: the GET throws before the
      write stream is opened; the write stream cannot open the full path (its directory is
      missing, as for a filename holding '/') and emits 'error' before anything is written;
      the writer emits 'finish' with the whole body on disk; or the writer emits 'error'
      after part of the body was written. */
  datatype Transfer = GetThrew | OpenFailed | Finished(content: Blob) | WriteError(partial: Blob)

  datatype SizeInfo = SizeInfo(size: Option<int>, exceedsLimit: bool)

  /** `checkFileSize(url)`: null when the HEAD request throws; otherwise the parsed length and
      whether it is strictly above MAX_FILE_SIZE (a NaN length never is). */
  function CheckFileSize(head: Head): (r: Option<SizeInfo>)
    ensures r.None? <==> head.HeadThrew?
    ensures r.Some? ==> r.value.size == head.contentLength
    ensures r.Some? ==> (r.value.exceedsLimit <==> exists n :: head.contentLength == Some(n) && n > MAX_FILE_SIZE)
  {
    match head
    case HeadThrew => None
    case HeadOk(len) => Some(SizeInfo(len, len.Some? && len.value > MAX_FILE_SIZE))
  }

  /** `if (maxSize)`: a missing (null) or zero argument switches the probe off. */
  predicate GuardEnabled(maxSize: Option<int>) {
    maxSize.Some? && maxSize.value != 0
  }

  /** The size guard of `downloadFile` turns the download down. */
  predicate Rejects(maxSize: Option<int>, head: Head) {
    GuardEnabled(maxSize) && var info := CheckFileSize(head); info.Some? && info.value.exceedsLimit
  }

  /** The constant is 35 MiB, not the 50 MB its comment claims. */
  lemma MaxFileSizeIs35MiB()
    ensures MAX_FILE_SIZE == 36700160
    ensures MAX_FILE_SIZE < 50 * 1024 * 1024
  {
  }

  /** The guard rejects exactly when it is switched on and the HEAD request reported a length
      strictly greater than MAX_FILE_SIZE. */
  lemma RejectsExactly(maxSize: Option<int>, head: Head)
    ensures Rejects(maxSize, head) <==>
              GuardEnabled(maxSize) && head.HeadOk? && head.contentLength.Some?
              && head.contentLength.value > MAX_FILE_SIZE
  {
  }

  /** The guard fails open: a failed HEAD request or an unreadable length never rejects. */
  lemma GuardFailsOpen(maxSize: Option<int>, head: Head)
    requires head.HeadThrew? || head.contentLength.None?
    ensures !Rejects(maxSize, head)
  {
  }

  /** The value of `maxSize` only switches the guard on: the comparison is always against
      MAX_FILE_SIZE, so any two enabling values decide alike. */
  lemma GuardIgnoresMaxSizeValue(m1: Option<int>, m2: Option<int>, head: Head)
    requires GuardEnabled(m1) && GuardEnabled(m2)
    ensures Rejects(m1, head) == Rejects(m2, head)
  {
  }

  /** The arguments of one `downloadFile(url, filename, spinner, basePath, maxSize)` call;
      `url` is None where the caller passes an undefined field. */
  datatype Request = Request(url: Option<string>, filename: string, basePath: string, maxSize: Option<int>)

  /** What `downloadFile` does for its caller: resolves with the full path, returns null
      after the guard rejects, or throws. */
  datatype DownloadResult = Saved(path: string) | Rejected | Failed

  datatype FsState = FsState(dirs: set<string>, files: map<string, Blob>)

  datatype Step = Step(state: FsState, result: DownloadResult)

  /** `path.join(basePath, filename)` for a base path and a plain file name. */
  function JoinPath(basePath: string, filename: string): string {
    basePath + "/" + filename
  }

  /** The call ends by throwing: the guard let it through and the body did not finish. */
  predicate CallFails(req: Request, head: Head, t: Transfer) {
    !Rejects(req.maxSize, head) && !t.Finished?
  }

  /** One `downloadFile` call on filesystem state `st`: what it leaves behind and what it
      returns to its caller. */
  function Attempt(st: FsState, req: Request, head: Head, t: Transfer): (s: Step)
    // rejection by the guard: null, and no directory and no file touched
    ensures s.result == Rejected <==> Rejects(req.maxSize, head)
    ensures s.result == Rejected ==> s.state == st
    // past the guard the base directory exists, whatever happens to the transfer
    ensures s.result != Rejected ==> s.state.dirs == st.dirs + {req.basePath}
    // success: the full path, holding the whole body, replacing any earlier file there
    ensures s.result.Saved? <==> !Rejects(req.maxSize, head) && t.Finished?
    ensures s.result.Saved? ==>
              s.result.path == JoinPath(req.basePath, req.filename)
              && s.state.files == st.files[s.result.path := t.content]
    // failure: rethrown; a half-written file stays behind
    ensures s.result.Failed? <==> CallFails(req, head, t)
    ensures s.result.Failed? && (t.GetThrew? || t.OpenFailed?) ==> s.state.files == st.files
    ensures s.result.Failed? && t.WriteError? ==>
              s.state.files == st.files[JoinPath(req.basePath, req.filename) := t.partial]
  {
    if Rejects(req.maxSize, head) then Step(st, Rejected)
    else
      var dirs := st.dirs + {req.basePath};
      var fullPath := JoinPath(req.basePath, req.filename);
      match t
      case GetThrew => Step(FsState(dirs, st.files), Failed)
      case OpenFailed => Step(FsState(dirs, st.files), Failed)
      case Finished(content) => Step(FsState(dirs, st.files[fullPath := content]), Saved(fullPath))
      case WriteError(partial) => Step(FsState(dirs, st.files[fullPath := partial]), Failed)
  }

  /** Nothing but the target path is ever written by one call. */
  lemma AttemptWritesOnlyTarget(st: FsState, req: Request, head: Head, t: Transfer, p: string)
    requires p != JoinPath(req.basePath, req.filename)
    ensures var s := Attempt(st, req, head, t);
            (p in s.state.files <==> p in st.files) && (p in st.files ==> s.state.files[p] == st.files[p])
  {
  }

  /** The state after running requests one after another, each awaited, where the first call
      that throws ends the run, as an exception leaving the calling loop does. `net(k)` is the
      outcome of the k-th GET. The batch's callers pass no `maxSize`, so no HEAD request is
      made; its outcome is written HeadThrew, which no guard turns down (GuardFailsOpen). */
  datatype BatchRun = BatchRun(state: FsState, attempted: nat, failed: bool)

  function RunBatch(st: FsState, reqs: seq<Request>, net: nat -> Transfer): (b: BatchRun)
    ensures b.attempted <= |reqs|
    ensures !b.failed ==> b.attempted == |reqs|
    ensures b.failed ==> b.attempted >= 1 && net(b.attempted - 1).Finished? == false
    ensures forall k :: 0 <= k < b.attempted && (k < b.attempted - 1 || !b.failed) ==> net(k).Finished?
    decreases |reqs|
  {
    if reqs == [] then BatchRun(st, 0, false)
    else
      var k := |reqs| - 1;
      var prev := RunBatch(st, reqs[..k], net);
      if prev.failed then prev
      else
        var s := Attempt(prev.state, reqs[k], HeadThrew, net(k));
        BatchRun(s.state, |reqs|, s.result.Failed?)
  }

  /** Extending a run that has not failed by one request performs that request's call. */
  lemma RunBatchStep(st: FsState, reqs: seq<Request>, n: nat, net: nat -> Transfer, req: Request)
    requires n < |reqs| && !RunBatch(st, reqs[..n], net).failed && reqs[n] == req
    ensures var s := Attempt(RunBatch(st, reqs[..n], net).state, req, HeadThrew, net(n));
            RunBatch(st, reqs[..n + 1], net) == BatchRun(s.state, n + 1, s.result.Failed?)
  {
    assert reqs[..n + 1][..n] == reqs[..n];
  }

  /** Once a run has failed, the requests after the failing one change nothing. */
  lemma {:induction false} RunBatchStopsAtFailure(st: FsState, reqs: seq<Request>, k: nat, net: nat -> Transfer)
    requires k <= |reqs| && RunBatch(st, reqs[..k], net).failed
    ensures RunBatch(st, reqs, net) == RunBatch(st, reqs[..k], net)
    decreases |reqs|
  {
    if k < |reqs| {
      var n := |reqs| - 1;
      assert reqs[..n][..k] == reqs[..k];
      RunBatchStopsAtFailure(st, reqs[..n], k, net);
    } else {
      assert reqs[..k] == reqs;
    }
  }

  /** Where a request's file goes. */
  function PathOf(req: Request): string {
    JoinPath(req.basePath, req.filename)
  }

  /** Two files under the same base directory are the same path only when their names agree. */
  lemma JoinPathInjective(basePath: string, f1: string, f2: string)
    ensures JoinPath(basePath, f1) == JoinPath(basePath, f2) ==> f1 == f2
  {
    var n := |basePath| + 1;
    assert f1 == JoinPath(basePath, f1)[n..];
    assert f2 == JoinPath(basePath, f2)[n..];
  }

  /** The paths a run may write to. */
  ghost predicate Targets(reqs: seq<Request>, p: string) {
    exists k :: 0 <= k < |reqs| && p == PathOf(reqs[k])
  }

  /** A run writes nothing outside the requests' own paths. */
  lemma {:induction false} RunBatchFrame(st: FsState, reqs: seq<Request>, net: nat -> Transfer, p: string)
    requires !Targets(reqs, p)
    ensures var b := RunBatch(st, reqs, net);
            (p in b.state.files <==> p in st.files) && (p in st.files ==> b.state.files[p] == st.files[p])
    decreases |reqs|
  {
    if reqs != [] {
      var n := |reqs| - 1;
      forall k | 0 <= k < n ensures p != PathOf(reqs[..n][k]) {
        assert reqs[..n][k] == reqs[k];
      }
      RunBatchFrame(st, reqs[..n], net, p);
      var prev := RunBatch(st, reqs[..n], net);
      if !prev.failed {
        assert p != PathOf(reqs[n]);
        AttemptWritesOnlyTarget(prev.state, reqs[n], HeadThrew, net(n), p);
      }
    }
  }

  /** When the requests' paths are pairwise distinct, every transfer of the run that finished
      left its whole body on disk: no later request of the run overwrites it. */
  lemma {:induction false} RunBatchKeepsFinished(st: FsState, reqs: seq<Request>, net: nat -> Transfer, k: nat)
    requires forall i, j :: 0 <= i < j < |reqs| ==> PathOf(reqs[i]) != PathOf(reqs[j])
    requires k < RunBatch(st, reqs, net).attempted && net(k).Finished?
    ensures var b := RunBatch(st, reqs, net);
            PathOf(reqs[k]) in b.state.files && b.state.files[PathOf(reqs[k])] == net(k).content
    decreases |reqs|
  {
    var n := |reqs| - 1;
    var prev := RunBatch(st, reqs[..n], net);
    if k < n {
      assert reqs[..n][k] == reqs[k];
      RunBatchKeepsFinished(st, reqs[..n], net, k);
      if !prev.failed {
        AttemptWritesOnlyTarget(prev.state, reqs[n], HeadThrew, net(n), PathOf(reqs[k]));
      }
    }
  }

  /** The abstract filesystem the engine writes to. */
  class FileSystem {
    var dirs: set<string>
    var files: map<string, Blob>

    constructor(dirs: set<string>, files: map<string, Blob>)
      ensures this.dirs == dirs && this.files == files
    {
      this.dirs := dirs;
      this.files := files;
    }

    function State(): FsState
      reads this
    {
      FsState(dirs, files)
    }

    /** `downloadFile(url, filename, spinner, basePath, maxSize)`: the size guard first, and
        an early return that touches nothing when it rejects; then `mkdirSync` when the base
        directory is missing; then the GET, piped into a write stream on the full path. */
    method DownloadFile(req: Request, head: Head, transfer: Transfer) returns (r: DownloadResult)
      modifies this
      ensures Step(State(), r) == Attempt(old(State()), req, head, transfer)
    {
      if GuardEnabled(req.maxSize) {
        var sizeInfo := CheckFileSize(head);
        if sizeInfo.Some? && sizeInfo.value.exceedsLimit {
          return Rejected;
        }
      }
      if req.basePath !in dirs {
        dirs := dirs + {req.basePath};
      }
      var fullPath := JoinPath(req.basePath, req.filename);
      match transfer {
        case GetThrew =>
          r := Failed;
        case OpenFailed =>
          r := Failed;
        case Finished(content) =>
          files := files[fullPath := content];
          r := Saved(fullPath);
        case WriteError(partial) =>
          files := files[fullPath := partial];
          r := Failed;
      }
    }
  }
}
