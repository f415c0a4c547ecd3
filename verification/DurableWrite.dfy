/**
 Replacing a file so that a power loss leaves the old contents or the new, never part of either: the
 sequence of system calls over a file system that may lose whatever has not been synced.
 */
module DurableWrite {
  import opened Voxels
  import opened SnapzCodec

  // --- a file system that can lose power ----------------------------------------------------------

  /** A file; unsynced contents may survive a power loss in any form at all. */
  datatype File = File(bytes: seq<byte>, synced: bool, mode: nat)

  type Names = map<string, nat>

  /** Files by number, and every state of the directory since it was last synced, the current one
      last: a power loss leaves any one of them. */
  datatype Disk = Disk(files: map<nat, File>, history: seq<Names>, next: nat) {
    ghost predicate Valid() {
      && history != []
      && (forall i :: i in files ==> i < next)
      && (forall k, q, i :: Links(k, q, i) ==> i in files)
    }

    /** In the k-th state of the directory the name q is file i. */
    predicate Links(k: int, q: string, i: nat) { 0 <= k < |history| && q in history[k] && history[k][q] == i }

    function Now(): Names
      requires history != []
    {
      history[|history| - 1]
    }

    function Put(i: nat, f: File): Disk { this.(files := files[i := f]) }

    function Log(names: Names): Disk { this.(history := history + [names]) }
  }

  /** What a name may hold after a power loss now. */
  ghost predicate MayHold(d: Disk, q: string, c: Option<seq<byte>>) {
    exists k :: 0 <= k < |d.history| && Survives(d, d.history[k], q, c)
  }

  predicate Survives(d: Disk, names: Names, q: string, c: Option<seq<byte>>) {
    if q !in names then c.None?
    else c.Some? && names[q] in d.files && (d.files[names[q]].synced ==> c.value == d.files[names[q]].bytes)
  }

  /** What a name holds as long as the power stays on. */
  function Holds(d: Disk, q: string): Option<File>
    requires d.history != []
  {
    if q in d.Now() && d.Now()[q] in d.files then Some(d.files[d.Now()[q]]) else None
  }

  /** The name's file, if it has one now, is linked by no other name and never was since the last sync. */
  ghost predicate Private(d: Disk, tmp: string)
    requires d.history != []
  {
    tmp in d.Now() ==> forall k, q, i :: d.Links(k, q, i) && q != tmp ==> i != d.Now()[tmp]
  }

  /** No state of the directory links one file twice. */
  ghost predicate NoLinks(d: Disk) {
    forall k, p, q, i :: d.Links(k, p, i) && d.Links(k, q, i) ==> p == q
  }

  ghost predicate Sane(d: Disk, tmp: string) { d.Valid() && Private(d, tmp) && NoLinks(d) }

  /** Power is lost and comes back: one of the directory's states, synced files as they were, others
      with any contents. */
  ghost predicate Crashes(d: Disk, e: Disk) {
    && (exists k :: 0 <= k < |d.history| && e.history == [d.history[k]])
    && e.files.Keys == d.files.Keys && e.next == d.next
    && forall i :: i in d.files ==> e.files[i].synced && (d.files[i].synced ==> e.files[i] == d.files[i])
  }

  // --- the calls ----------------------------------------------------------------------------------

  /** What the system answers to one call. */
  datatype Answer = Yes | No | Wrote(n: nat) | Interrupted | Unsupported

  /** How a write of a file ends; Lost is a power loss before it returns. */
  datatype Outcome = Done | NotSynced | Failed | Lost

  function Open(d: Disk, tmp: string, mode: nat): Disk
    requires d.Valid()
  {
    if tmp in d.Now() then
      assert d.Links(|d.history| - 1, tmp, d.Now()[tmp]);
      d.Put(d.Now()[tmp], File([], false, d.files[d.Now()[tmp]].mode))
    else
      Disk(d.files[d.next := File([], false, mode)], d.history + [d.Now()[tmp := d.next]], d.next + 1)
  }

  function Unlink(d: Disk, tmp: string): Disk
    requires d.history != []
  {
    d.Log(d.Now() - {tmp})
  }

  function Rename(d: Disk, tmp: string, path: string): (e: Disk)
    requires d.history != [] && tmp in d.Now()
    ensures e.history != []
  {
    d.Log((d.Now() - {tmp})[path := d.Now()[tmp]])
  }

  function SyncDir(d: Disk): Disk
    requires d.history != []
  {
    d.(history := [d.Now()])
  }

  function TmpOf(path: string): string { path + ".tmp" }

  // --- the write, one call at a time ----------------------------------------------------------------

  /** A failed write takes its temporary file away again, if the system lets it. */
  function CleanUp(d: Disk, tmp: string, answers: seq<Answer>): (Disk, Outcome)
    requires d.history != []
  {
    if answers == [] then (d, Lost)
    else (if answers[0].Yes? then Unlink(d, tmp) else d, Failed)
  }

  function WriteFile(d: Disk, path: string, data: seq<byte>, mode: nat, answers: seq<Answer>): (Disk, Outcome)
    requires d.Valid()
  {
    var tmp := TmpOf(path);
    if answers == [] then (d, Lost)
    else if !answers[0].Yes? then (d, Failed)
    else SetMode(Open(d, tmp, mode), path, data, mode, answers[1..])
  }

  /** The temporary file is open under its name. */
  ghost predicate Opened(d: Disk, tmp: string) { d.history != [] && tmp in d.Now() && d.Now()[tmp] in d.files }

  function SetMode(d: Disk, path: string, data: seq<byte>, mode: nat, answers: seq<Answer>): (Disk, Outcome)
    requires Opened(d, TmpOf(path))
  {
    var i := d.Now()[TmpOf(path)];
    if answers == [] then (d, Lost)
    else if !answers[0].Yes? then CleanUp(d, TmpOf(path), answers[1..])
    else WriteBytes(d.Put(i, d.files[i].(mode := mode)), path, data, 0, answers[1..])
  }

  function Least(a: nat, b: nat): nat { if a < b then a else b }

  function WriteBytes(d: Disk, path: string, data: seq<byte>, off: nat, answers: seq<Answer>): (Disk, Outcome)
    requires Opened(d, TmpOf(path)) && off <= |data|
    decreases |answers|
  {
    var i := d.Now()[TmpOf(path)];
    if off == |data| then Finish(d, path, answers)
    else if answers == [] then (d, Lost)
    else if answers[0].Interrupted? then WriteBytes(d, path, data, off, answers[1..])
    else if !answers[0].Wrote? then CleanUp(d, TmpOf(path), answers[1..])
    else
      var n := Least(answers[0].n, |data| - off);
      var f := d.files[i].(bytes := d.files[i].bytes + data[off..off + n], synced := false);
      WriteBytes(d.Put(i, f), path, data, off + n, answers[1..])
  }

  /** Sync the file, close it, and move it over the target. */
  function Finish(d: Disk, path: string, answers: seq<Answer>): (Disk, Outcome)
    requires Opened(d, TmpOf(path))
  {
    var i := d.Now()[TmpOf(path)];
    if answers == [] then (d, Lost)
    else if !answers[0].Yes? then CleanUp(d, TmpOf(path), answers[1..])
    else
      var e := d.Put(i, d.files[i].(synced := true));
      if |answers| == 1 then (e, Lost)
      else if !answers[1].Yes? then CleanUp(e, TmpOf(path), answers[2..])
      else if |answers| == 2 then (e, Lost)
      else if !answers[2].Yes? then CleanUp(e, TmpOf(path), answers[3..])
      else SyncName(Rename(e, TmpOf(path), path), answers[3..])
  }

  /** Open the directory and sync it; a system that cannot sync a directory is not an error. */
  function SyncName(d: Disk, answers: seq<Answer>): (Disk, Outcome)
    requires d.history != []
  {
    if answers == [] then (d, Lost)
    else if !answers[0].Yes? then (d, NotSynced)
    else if |answers| == 1 then (d, Lost)
    else if answers[1].Yes? then (SyncDir(d), Done)
    else (d, if answers[1].Unsupported? then Done else NotSynced)
  }

  // --- what stays as it was ---------------------------------------------------------------------------

  /** No other name is touched, neither what it holds now nor what it may hold after a power loss. */
  ghost predicate Quiet(d: Disk, e: Disk, tmp: string) {
    && d.history != [] && e.history != []
    && (forall q :: q != tmp ==> Holds(e, q) == Holds(d, q))
    && (forall q, c :: q != tmp ==> (MayHold(e, q, c) <==> MayHold(d, q, c)))
  }

  lemma QuietTrans(a: Disk, b: Disk, c: Disk, tmp: string)
    requires Quiet(a, b, tmp) && Quiet(b, c, tmp)
    ensures Quiet(a, c, tmp)
  {
    hide MayHold;
  }

  /** Any change of the temporary file's own contents. */
  lemma PutQuiet(d: Disk, tmp: string, f: File)
    requires Sane(d, tmp) && tmp in d.Now()
    ensures var e := d.Put(d.Now()[tmp], f); Sane(e, tmp) && Quiet(d, e, tmp) && Opened(e, tmp) && e.Now() == d.Now()
  {
    var i := d.Now()[tmp];
    var e := d.Put(i, f);
    assert d.Links(|d.history| - 1, tmp, i);
    assert forall k, q, j :: e.Links(k, q, j) <==> d.Links(k, q, j);
    forall q | q != tmp
      ensures Holds(e, q) == Holds(d, q)
    {
      if q in d.Now() { assert d.Links(|d.history| - 1, q, d.Now()[q]); }
    }
    forall q, c | q != tmp
      ensures MayHold(e, q, c) <==> MayHold(d, q, c)
    {
      forall k | 0 <= k < |d.history|
        ensures Survives(e, e.history[k], q, c) <==> Survives(d, d.history[k], q, c)
      {
        if q in d.history[k] { assert d.Links(k, q, d.history[k][q]); }
      }
    }
  }

  /** A new state of the directory that agrees with the last but for tmp, which names no file of another. */
  lemma LogQuiet(d: Disk, tmp: string, names: Names)
    requires Sane(d, tmp)
    requires forall q :: q != tmp ==> (q in names <==> q in d.Now()) && (q in names ==> names[q] == d.Now()[q])
    requires tmp in names ==> names[tmp] in d.files && forall k, q, i :: d.Links(k, q, i) ==> i != names[tmp]
    ensures Sane(d.Log(names), tmp) && Quiet(d, d.Log(names), tmp)
  {
    var e := d.Log(names);
    var n := |d.history|;
    forall k, q, i | e.Links(k, q, i)
      ensures k < n ==> d.Links(k, q, i)
      ensures k == n && q != tmp ==> d.Links(n - 1, q, i)
    {
    }
    LogNoLinks(d, tmp, names);
    forall q, c | q != tmp
      ensures MayHold(e, q, c) <==> MayHold(d, q, c)
    {
      assert Survives(e, names, q, c) <==> Survives(d, d.Now(), q, c);
      assert forall k :: 0 <= k < n ==> e.history[k] == d.history[k];
      assert forall k :: 0 <= k < n ==> (Survives(e, e.history[k], q, c) <==> Survives(d, d.history[k], q, c));
      assert e.history[n] == names;
    }
  }

  lemma LogNoLinks(d: Disk, tmp: string, names: Names)
    requires Sane(d, tmp)
    requires forall q :: q != tmp ==> (q in names <==> q in d.Now()) && (q in names ==> names[q] == d.Now()[q])
    requires tmp in names ==> names[tmp] in d.files && forall k, q, i :: d.Links(k, q, i) ==> i != names[tmp]
    ensures NoLinks(d.Log(names))
  {
    var e := d.Log(names);
    var n := |d.history|;
    forall k, p, q, i | e.Links(k, p, i) && e.Links(k, q, i)
      ensures p == q
    {
      if k < n {
        assert d.Links(k, p, i) && d.Links(k, q, i);
      } else {
        if p != tmp { assert d.Links(n - 1, p, i); }
        if q != tmp { assert d.Links(n - 1, q, i); }
      }
    }
  }

  lemma UnlinkQuiet(d: Disk, tmp: string)
    requires Sane(d, tmp)
    ensures Sane(Unlink(d, tmp), tmp) && Quiet(d, Unlink(d, tmp), tmp)
  {
    LogQuiet(d, tmp, d.Now() - {tmp});
  }

  lemma OpenQuiet(d: Disk, tmp: string, mode: nat)
    requires Sane(d, tmp)
    ensures var e := Open(d, tmp, mode);
      && Sane(e, tmp) && Quiet(d, e, tmp) && Opened(e, tmp) && e.files[e.Now()[tmp]].bytes == []
  {
    if tmp in d.Now() {
      var i := d.Now()[tmp];
      assert d.Links(|d.history| - 1, tmp, i);
      PutQuiet(d, tmp, File([], false, d.files[i].mode));
    } else {
      var c := d.(files := d.files[d.next := File([], false, mode)], next := d.next + 1);
      AllocQuiet(d, tmp, File([], false, mode));
      forall k, q, i | c.Links(k, q, i)
        ensures i != d.next
      {
        assert d.Links(k, q, i);
      }
      LogQuiet(c, tmp, d.Now()[tmp := d.next]);
      QuietTrans(d, c, c.Log(d.Now()[tmp := d.next]), tmp);
    }
  }

  lemma AllocQuiet(d: Disk, tmp: string, f: File)
    requires Sane(d, tmp) && tmp !in d.Now()
    ensures var e := d.(files := d.files[d.next := f], next := d.next + 1); Sane(e, tmp) && Quiet(d, e, tmp)
  {
    var e := d.(files := d.files[d.next := f], next := d.next + 1);
    assert forall k, q, j :: e.Links(k, q, j) <==> d.Links(k, q, j);
    forall q | q != tmp
      ensures Holds(e, q) == Holds(d, q)
    {
      if q in d.Now() { assert d.Links(|d.history| - 1, q, d.Now()[q]); }
    }
    forall q, c | q != tmp
      ensures MayHold(e, q, c) <==> MayHold(d, q, c)
    {
      forall k | 0 <= k < |d.history|
        ensures Survives(e, e.history[k], q, c) <==> Survives(d, d.history[k], q, c)
      {
        if q in d.history[k] { assert d.Links(k, q, d.history[k][q]); }
      }
    }
  }

  // --- old or new, never part of either ---------------------------------------------------------------

  /** Where a write from d may have got to, however it ended: any contents the target may show after a
      power loss were possible before or are the new ones in full, and no other name is touched. */
  ghost predicate Whole(d: Disk, e: Disk, path: string, data: seq<byte>) {
    && Sane(e, TmpOf(path)) && d.history != []
    && (forall c :: MayHold(e, path, c) ==> MayHold(d, path, c) || c == Some(data))
    && (forall q, c :: q != path && q != TmpOf(path) && MayHold(e, q, c) ==> MayHold(d, q, c))
    && (forall q :: q != path && q != TmpOf(path) ==> Holds(e, q) == Holds(d, q))
  }

  /** What the answer says: a failure left the target alone; a success, or one whose directory sync
      failed, has the new contents in place, synced, with the mode asked for. */
  ghost predicate Told(d: Disk, e: Disk, r: Outcome, path: string, data: seq<byte>, mode: nat)
    requires d.history != [] && e.history != []
  {
    match r
    case Failed => Holds(e, path) == Holds(d, path) && forall c :: MayHold(e, path, c) <==> MayHold(d, path, c)
    case Lost => Holds(e, path) == Holds(d, path) || Holds(e, path) == Some(File(data, true, mode))
    case _ =>
      && Holds(e, path) == Some(File(data, true, mode))
      && (r.Done? && |e.history| == 1 ==> forall c :: MayHold(e, path, c) <==> c == Some(data))
  }

  ghost predicate Good(d: Disk, er: (Disk, Outcome), path: string, data: seq<byte>, mode: nat) {
    Whole(d, er.0, path, data) && Told(d, er.0, er.1, path, data, mode)
  }

  lemma TmpDiffers(path: string)
    ensures TmpOf(path) != path
  {
    assert |TmpOf(path)| == |path| + 4;
  }

  lemma QuietIsGood(d: Disk, e: Disk, r: Outcome, path: string, data: seq<byte>, mode: nat)
    requires Quiet(d, e, TmpOf(path)) && Sane(e, TmpOf(path)) && (r.Failed? || r.Lost?)
    ensures Good(d, (e, r), path, data, mode)
  {
    hide MayHold, Holds, Sane, TmpOf;
    TmpDiffers(path);
  }

  lemma CleanUpGood(d: Disk, e: Disk, path: string, data: seq<byte>, mode: nat, answers: seq<Answer>)
    requires Quiet(d, e, TmpOf(path)) && Sane(e, TmpOf(path))
    ensures Good(d, CleanUp(e, TmpOf(path), answers), path, data, mode)
  {
    UnlinkQuiet(e, TmpOf(path));
    hide MayHold, Holds, Sane, TmpOf, Quiet, Good, Unlink;
    QuietTrans(d, e, Unlink(e, TmpOf(path)), TmpOf(path));
    QuietIsGood(d, e, Lost, path, data, mode);
    QuietIsGood(d, e, Failed, path, data, mode);
    QuietIsGood(d, Unlink(e, TmpOf(path)), Failed, path, data, mode);
  }

  /** The state of the directory a rename leaves names no file twice. */
  lemma RenameSane(e: Disk, path: string)
    requires Sane(e, TmpOf(path)) && Opened(e, TmpOf(path))
    ensures Sane(Rename(e, TmpOf(path), path), TmpOf(path))
  {
    TmpDiffers(path);
    var tmp := TmpOf(path);
    var n := |e.history|;
    var f := Rename(e, tmp, path);
    hide TmpOf;
    assert f.Now() == (e.Now() - {tmp})[path := e.Now()[tmp]];
    assert e.Links(n - 1, tmp, e.Now()[tmp]);
    forall k, q, i | f.Links(k, q, i)
      ensures k < n ==> e.Links(k, q, i)
      ensures k == n && q != path ==> q != tmp && e.Links(n - 1, q, i)
      ensures k == n && q == path ==> i == e.Now()[tmp]
    {
    }
  }

  /** Renaming a synced file over the target adds its contents to what the target may show, and
      nothing else. */
  lemma RenameWhole(e: Disk, path: string, data: seq<byte>, mode: nat)
    requires Sane(e, TmpOf(path)) && Opened(e, TmpOf(path)) && e.files[e.Now()[TmpOf(path)]] == File(data, true, mode)
    ensures var f := Rename(e, TmpOf(path), path);
      && Holds(f, path) == Some(File(data, true, mode))
      && (forall c :: MayHold(f, path, c) ==> MayHold(e, path, c) || c == Some(data))
      && (forall q, c :: q != path && q != TmpOf(path) && MayHold(f, q, c) ==> MayHold(e, q, c))
      && (forall q :: q != path && q != TmpOf(path) ==> Holds(f, q) == Holds(e, q))
  {
    var tmp := TmpOf(path);
    var n := |e.history|;
    var f := Rename(e, tmp, path);
    TmpDiffers(path);
    hide TmpOf;
    forall q, c | q != tmp && MayHold(f, q, c)
      ensures MayHold(e, q, c) || (q == path && c == Some(data))
    {
      var k :| 0 <= k < |f.history| && Survives(f, f.history[k], q, c);
      if k < n { assert Survives(e, e.history[k], q, c); }
      if k == n && q != path { assert Survives(e, e.history[n - 1], q, c); }
    }
  }

  /** After the directory is synced only its current state can survive. */
  lemma SyncDirIs(f: Disk, tmp: string)
    requires Sane(f, tmp)
    ensures Sane(SyncDir(f), tmp) && forall q :: Holds(SyncDir(f), q) == Holds(f, q)
    ensures forall q, c :: MayHold(SyncDir(f), q, c) <==> Survives(f, f.Now(), q, c)
    ensures forall q, c :: MayHold(SyncDir(f), q, c) ==> MayHold(f, q, c)
  {
    var g := SyncDir(f);
    var n := |f.history|;
    forall k, q, i | g.Links(k, q, i)
      ensures f.Links(n - 1, q, i)
    {
    }
    forall q, c
      ensures MayHold(g, q, c) <==> Survives(f, f.Now(), q, c)
    {
      if Survives(f, f.Now(), q, c) { assert Survives(g, g.history[0], q, c); }
    }
  }

  lemma SyncNameGood(d: Disk, e: Disk, path: string, data: seq<byte>, mode: nat, answers: seq<Answer>)
    requires Quiet(d, e, TmpOf(path)) && Sane(e, TmpOf(path))
    requires Opened(e, TmpOf(path)) && e.files[e.Now()[TmpOf(path)]] == File(data, true, mode)
    ensures Good(d, SyncName(Rename(e, TmpOf(path), path), answers), path, data, mode)
  {
    var f := Rename(e, TmpOf(path), path);
    RenameSane(e, path);
    RenameWhole(e, path, data, mode);
    SyncDirIs(f, TmpOf(path));
    TmpDiffers(path);
    assert |e.history| > 0 && |f.history| > 1;
    hide MayHold, Sane, TmpOf, Rename;
    if Holds(f, path) == Some(File(data, true, mode)) {
      forall c
        ensures Survives(f, f.Now(), path, c) <==> c == Some(data)
      {
      }
    }
    hide Holds, Survives;
  }

  lemma FinishGood(d: Disk, e: Disk, path: string, data: seq<byte>, mode: nat, answers: seq<Answer>)
    requires Quiet(d, e, TmpOf(path)) && Sane(e, TmpOf(path)) && Opened(e, TmpOf(path))
    requires e.files[e.Now()[TmpOf(path)]].bytes == data && e.files[e.Now()[TmpOf(path)]].mode == mode
    ensures Good(d, Finish(e, path, answers), path, data, mode)
  {
    var tmp := TmpOf(path);
    var f := e.Put(e.Now()[tmp], e.files[e.Now()[tmp]].(synced := true));
    PutQuiet(e, tmp, e.files[e.Now()[tmp]].(synced := true));
    hide MayHold, Holds, Sane, TmpOf, Quiet, Good, CleanUp, SyncName, Rename;
    QuietTrans(d, e, f, tmp);
    QuietIsGood(d, e, Lost, path, data, mode);
    QuietIsGood(d, f, Lost, path, data, mode);
    if answers != [] {
      CleanUpGood(d, e, path, data, mode, answers[1..]);
      if |answers| > 1 { CleanUpGood(d, f, path, data, mode, answers[2..]); }
      if |answers| > 2 {
        CleanUpGood(d, f, path, data, mode, answers[3..]);
        SyncNameGood(d, f, path, data, mode, answers[3..]);
      }
    }
  }

  /** However the bytes go out, in what pieces and with what interruptions. */
  lemma {:induction false} WriteBytesGood(d: Disk, e: Disk, path: string, data: seq<byte>, off: nat, mode: nat, answers: seq<Answer>)
    requires Quiet(d, e, TmpOf(path)) && Sane(e, TmpOf(path)) && Opened(e, TmpOf(path)) && off <= |data|
    requires e.files[e.Now()[TmpOf(path)]].bytes == data[..off] && e.files[e.Now()[TmpOf(path)]].mode == mode
    ensures Good(d, WriteBytes(e, path, data, off, answers), path, data, mode)
    decreases |answers|
  {
    var tmp := TmpOf(path);
    var i := e.Now()[tmp];
    hide Sane, TmpOf, Quiet, Good, CleanUp, Finish;
    QuietIsGood(d, e, Lost, path, data, mode);
    if off == |data| {
      assert data[..off] == data;
      FinishGood(d, e, path, data, mode, answers);
    } else if answers != [] {
      CleanUpGood(d, e, path, data, mode, answers[1..]);
      if answers[0].Interrupted? {
        WriteBytesGood(d, e, path, data, off, mode, answers[1..]);
      } else if answers[0].Wrote? {
        var n := Least(answers[0].n, |data| - off);
        var f := e.files[i].(bytes := e.files[i].bytes + data[off..off + n], synced := false);
        PutQuiet(e, tmp, f);
        QuietTrans(d, e, e.Put(i, f), tmp);
        assert data[..off] + data[off..off + n] == data[..off + n];
        WriteBytesGood(d, e.Put(i, f), path, data, off + n, mode, answers[1..]);
      }
    }
  }

  /** At every point of a write, whatever the system answered so far, the target can only come back
      with contents it might have had before or with the new ones in full; and the outcome says which. */
  lemma WriteFileGood(d: Disk, path: string, data: seq<byte>, mode: nat, answers: seq<Answer>)
    requires Sane(d, TmpOf(path))
    ensures Good(d, WriteFile(d, path, data, mode, answers), path, data, mode)
  {
    var tmp := TmpOf(path);
    OpenQuiet(d, tmp, mode);
    var e := Open(d, tmp, mode);
    var i := e.Now()[tmp];
    var f := e.files[i].(mode := mode);
    PutQuiet(e, tmp, f);
    StillQuiet(d, tmp);
    hide MayHold, Holds, Sane, TmpOf, Quiet, Good, CleanUp, WriteBytes, Open;
    QuietTrans(d, e, e.Put(i, f), tmp);
    QuietIsGood(d, d, Lost, path, data, mode);
    QuietIsGood(d, d, Failed, path, data, mode);
    QuietIsGood(d, e, Lost, path, data, mode);
    if |answers| > 1 {
      CleanUpGood(d, e, path, data, mode, answers[1..][1..]);
      assert data[..0] == [];
      WriteBytesGood(d, e.Put(i, f), path, data, 0, mode, answers[1..][1..]);
    }
  }

  lemma StillQuiet(d: Disk, tmp: string)
    requires Sane(d, tmp)
    ensures Quiet(d, d, tmp)
  {
  }

  // --- when a write works -------------------------------------------------------------------------

  /** Answers that put exactly n bytes out, in pieces and with interruptions. */
  predicate Carries(ws: seq<Answer>, n: nat) {
    if n == 0 then ws == []
    else
      && ws != []
      && ((ws[0].Interrupted? && Carries(ws[1..], n)) || (ws[0].Wrote? && Carries(ws[1..], n - Least(ws[0].n, n))))
  }

  /** The first j of such answers leave the write where the others carry the rest. */
  lemma {:induction false} WritesOn(d: Disk, path: string, data: seq<byte>, off: nat, ws: seq<Answer>, j: nat, rest: seq<Answer>)
      returns (e: Disk, at: nat)
    requires Opened(d, TmpOf(path)) && off <= |data| && Carries(ws, |data| - off) && j <= |ws|
    ensures Opened(e, TmpOf(path)) && e.Now() == d.Now() && at <= |data| && Carries(ws[j..], |data| - at)
    ensures WriteBytes(d, path, data, off, ws[..j] + rest) == WriteBytes(e, path, data, at, rest)
    decreases j
  {
    hide TmpOf, Finish, CleanUp;
    if j == 0 {
      assert ws[..0] + rest == rest;
      e, at := d, off;
    } else {
      var more := ws[1..];
      assert (ws[..j] + rest)[1..] == more[..j - 1] + rest && (ws[..j] + rest)[0] == ws[0];
      assert ws[j..] == more[j - 1..];
      if ws[0].Interrupted? && Carries(more, |data| - off) {
        e, at := WritesOn(d, path, data, off, more, j - 1, rest);
      } else {
        var n, i := Least(ws[0].n, |data| - off), d.Now()[TmpOf(path)];
        var f := d.files[i].(bytes := d.files[i].bytes + data[off..off + n], synced := false);
        e, at := WritesOn(d.Put(i, f), path, data, off + n, more, j - 1, rest);
      }
    }
  }

  /** The calls up to the move over the target: open, mode, writes, sync, close, rename. */
  function GoodCalls(ws: seq<Answer>): seq<Answer> { [Yes, Yes] + ws + [Yes, Yes, Yes] }

  lemma Started(d: Disk, path: string, data: seq<byte>, mode: nat, answers: seq<Answer>)
    requires Sane(d, TmpOf(path)) && |answers| >= 2 && answers[0] == answers[1] == Yes
    ensures var e := Open(d, TmpOf(path), mode);
      && Opened(e, TmpOf(path))
      && var i := e.Now()[TmpOf(path)]; var f := e.Put(i, e.files[i].(mode := mode));
      && Opened(f, TmpOf(path))
      && WriteFile(d, path, data, mode, answers) == WriteBytes(f, path, data, 0, answers[2..])
  {
    hide Sane, TmpOf, WriteBytes;
    OpenQuiet(d, TmpOf(path), mode);
    assert answers[1..][1..] == answers[2..];
  }

  /** When every call up to the rename goes well, pieces and interruptions aside, the new contents are in
      place; they are there for good, whatever power loss comes, once the directory is synced too. */
  lemma SaveWorks(d: Disk, path: string, data: seq<byte>, mode: nat, ws: seq<Answer>, a: Answer, b: Answer)
    requires Sane(d, TmpOf(path)) && Carries(ws, |data|)
    ensures var (e, r) := WriteFile(d, path, data, mode, GoodCalls(ws) + [a, b]);
      && (r == Done <==> a.Yes? && (b.Yes? || b.Unsupported?)) && (r == NotSynced <==> r != Done)
      && e.history != [] && Holds(e, path) == Some(File(data, true, mode))
      && (a.Yes? && b.Yes? ==> forall c :: MayHold(e, path, c) <==> c == Some(data))
  {
    var answers := GoodCalls(ws) + [a, b];
    var tail := [Yes, Yes, Yes, a, b];
    assert answers[2..] == ws + tail && ws[..|ws|] == ws;
    WriteFileGood(d, path, data, mode, answers);
    Started(d, path, data, mode, answers);
    var e := Open(d, TmpOf(path), mode);
    var i := e.Now()[TmpOf(path)];
    hide Sane, TmpOf, MayHold, Holds, Open, Whole, WriteFile;
    var f, at := WritesOn(e.Put(i, e.files[i].(mode := mode)), path, data, 0, ws, |ws|, tail);
    FinishYes(f, path, data, at, a, b);
  }

  lemma FinishYes(f: Disk, path: string, data: seq<byte>, at: nat, a: Answer, b: Answer)
    requires Opened(f, TmpOf(path)) && at == |data|
    ensures var (e, r) := WriteBytes(f, path, data, at, [Yes, Yes, Yes, a, b]);
      && (r == Done <==> a.Yes? && (b.Yes? || b.Unsupported?)) && (r == NotSynced <==> r != Done)
      && e.history != [] && (a.Yes? && b.Yes? ==> |e.history| == 1)
  {
    hide TmpOf;
  }

  /** An error of any call up to the rename fails the write, and leaves no temporary file if the system
      lets it go. */
  lemma ErrorFails(d: Disk, path: string, data: seq<byte>, mode: nat, ws: seq<Answer>, k: nat, x: Answer, y: Answer)
    requires Sane(d, TmpOf(path)) && Carries(ws, |data|) && k < |GoodCalls(ws)|
    requires if 2 <= k < 2 + |ws| then !x.Wrote? && !x.Interrupted? else !x.Yes?
    ensures var (e, r) := WriteFile(d, path, data, mode, GoodCalls(ws)[..k] + [x, y]);
      r == Failed && (k == 0 ==> e == d) && (k > 0 && y.Yes? ==> e.history != [] && Holds(e, TmpOf(path)) == None)
  {
    var answers := GoodCalls(ws)[..k] + [x, y];
    if k >= 2 {
      var j := if k - 2 < |ws| then k - 2 else |ws|;
      var rest := [Yes, Yes, Yes][..k - 2 - j] + [x, y];
      assert answers[2..] == ws[..j] + rest;
      Started(d, path, data, mode, answers);
      var e := Open(d, TmpOf(path), mode);
      var i := e.Now()[TmpOf(path)];
      hide Sane, TmpOf, Open;
      var f, at := WritesOn(e.Put(i, e.files[i].(mode := mode)), path, data, 0, ws, j, rest);
      ErrorEnds(f, path, data, at, ws[j..], k - 2 - j, x, y);
    } else if k == 1 {
      OpenQuiet(d, TmpOf(path), mode);
      assert answers[1..] == [x, y];
    }
  }

  lemma ErrorEnds(f: Disk, path: string, data: seq<byte>, at: nat, ws: seq<Answer>, k: nat, x: Answer, y: Answer)
    requires Opened(f, TmpOf(path)) && at <= |data| && Carries(ws, |data| - at) && k < 3
    requires if ws != [] then k == 0 && !x.Wrote? && !x.Interrupted? else !x.Yes?
    ensures var (e, r) := WriteBytes(f, path, data, at, [Yes, Yes, Yes][..k] + [x, y]);
      r == Failed && (y.Yes? ==> e.history != [] && Holds(e, TmpOf(path)) == None)
  {
    hide TmpOf;
    var answers := [Yes, Yes, Yes][..k] + [x, y];
    assert answers[k] == x && answers[k + 1..] == [y];
  }

  // --- every run ----------------------------------------------------------------------------------

  /** One file's life: writes of it, each with whatever the system answered, and power losses. */
  datatype Event = Save(data: seq<byte>, mode: nat, answers: seq<Answer>) | Outage(after: Disk)

  /** A power loss keeps the disk in order, and nothing survives it that might not have. */
  lemma CrashKeeps(d: Disk, e: Disk, tmp: string)
    requires Sane(d, tmp) && Crashes(d, e)
    ensures Sane(e, tmp) && forall q, c :: MayHold(e, q, c) ==> MayHold(d, q, c)
  {
    var k :| 0 <= k < |d.history| && e.history == [d.history[k]];
    assert forall i :: i in e.files ==> i in d.files.Keys;
    assert forall j, q, i :: e.Links(j, q, i) ==> d.Links(k, q, i);
    forall q, c | MayHold(e, q, c)
      ensures MayHold(d, q, c)
    {
      assert Survives(e, d.history[k], q, c);
      assert Survives(d, d.history[k], q, c);
    }
    if tmp in e.Now() {
      assert e.Links(0, tmp, e.Now()[tmp]);
    }
  }

  ghost predicate Happens(d: Disk, path: string, events: seq<Event>)
    requires Sane(d, TmpOf(path))
    decreases |events|
  {
    events == [] ||
    match events[0]
    case Outage(e) => Crashes(d, e) && (CrashKeeps(d, e, TmpOf(path)); Happens(e, path, events[1..]))
    case Save(data, mode, answers) =>
      (WriteFileGood(d, path, data, mode, answers); Happens(WriteFile(d, path, data, mode, answers).0, path, events[1..]))
  }

  ghost function After(d: Disk, path: string, events: seq<Event>): (e: Disk)
    requires Sane(d, TmpOf(path)) && Happens(d, path, events)
    ensures Sane(e, TmpOf(path))
    decreases |events|
  {
    if events == [] then d
    else
      match events[0]
      case Outage(e) => CrashKeeps(d, e, TmpOf(path)); After(e, path, events[1..])
      case Save(data, mode, answers) =>
        WriteFileGood(d, path, data, mode, answers);
        After(WriteFile(d, path, data, mode, answers).0, path, events[1..])
  }

  /** Over every run of writes and power losses, failed and interrupted writes included, the target
      only ever holds what it might have held at the start or the whole of something that was saved. */
  lemma {:induction false} NeverPartial(d: Disk, path: string, events: seq<Event>, c: Option<seq<byte>>)
    requires Sane(d, TmpOf(path)) && Happens(d, path, events) && MayHold(After(d, path, events), path, c)
    ensures MayHold(d, path, c) || exists k :: 0 <= k < |events| && events[k].Save? && c == Some(events[k].data)
    decreases |events|
  {
    assert d.Valid();
    hide MayHold, Sane, Crashes, WriteFile, TmpOf;
    if events != [] {
      var e := match events[0] case Outage(e) => e case Save(data, mode, answers) => WriteFile(d, path, data, mode, answers).0;
      match events[0] {
        case Outage(_) => CrashKeeps(d, e, TmpOf(path));
        case Save(data, mode, answers) => WriteFileGood(d, path, data, mode, answers);
      }
      NeverPartial(e, path, events[1..], c);
      if !MayHold(e, path, c) {
        var k :| 0 <= k < |events[1..]| && events[1..][k].Save? && c == Some(events[1..][k].data);
        assert events[k + 1] == events[1..][k];
      } else if events[0].Save? {
        assert events[0].Save?;
      }
    }
  }

  // --- the calls in order -------------------------------------------------------------------------

  class FileSystem {
    var disk: Disk
    /** What the system will answer, call by call; when it runs out the power is gone. */
    var answers: seq<Answer>

    constructor (disk: Disk, answers: seq<Answer>)
      ensures this.disk == disk && this.answers == answers
    {
      this.disk, this.answers := disk, answers;
    }

    /** The answer to the next call, if the power lasts until then. */
    method Ask() returns (a: Option<Answer>)
      modifies this`answers
      ensures old(answers) == [] ==> a.None? && answers == []
      ensures old(answers) != [] ==> a == Some(old(answers)[0]) && answers == old(answers)[1..]
    {
      if answers == [] { return None; }
      a := Some(answers[0]);
      answers := answers[1..];
    }

    method Fail(tmp: string) returns (r: Outcome)
      requires disk.history != []
      modifies this
      ensures (disk, r) == CleanUp(old(disk), tmp, old(answers))
    {
      var a := Ask();
      if a.None? { return Lost; }
      if a.value.Yes? { disk := Unlink(disk, tmp); }
      return Failed;
    }

    /** Write the temporary file, sync it, move it over the target, sync the directory. */
    method WriteFileDurable(path: string, data: seq<byte>, mode: nat) returns (r: Outcome)
      requires Sane(disk, TmpOf(path))
      modifies this
      ensures (disk, r) == WriteFile(old(disk), path, data, mode, old(answers))
      ensures Good(old(disk), (disk, r), path, data, mode)
    {
      WriteFileGood(disk, path, data, mode, answers);
      OpenQuiet(disk, TmpOf(path), mode);
      hide Good, TmpOf, Sane, CleanUp;
      var a := Ask();
      if a.None? { return Lost; }
      if !a.value.Yes? { return Failed; }
      disk := Open(disk, TmpOf(path), mode);
      hide Open;
      a := Ask();
      if a.None? { return Lost; }
      if !a.value.Yes? {
        r := Fail(TmpOf(path));
        return;
      }
      var i := disk.Now()[TmpOf(path)];
      disk := disk.Put(i, disk.files[i].(mode := mode));
      r := WriteAll(path, data);
    }

    method WriteAll(path: string, data: seq<byte>) returns (r: Outcome)
      requires Opened(disk, TmpOf(path))
      modifies this
      ensures (disk, r) == WriteBytes(old(disk), path, data, 0, old(answers))
    {
      hide TmpOf, CleanUp, Finish;
      var off := 0;
      while off < |data|
        invariant 0 <= off <= |data| && Opened(disk, TmpOf(path))
        invariant WriteBytes(disk, path, data, off, answers) == WriteBytes(old(disk), path, data, 0, old(answers))
        decreases |answers|
      {
        var a := Ask();
        if a.None? { return Lost; }
        if a.value.Interrupted? { continue; }
        if !a.value.Wrote? {
          r := Fail(TmpOf(path));
          return;
        }
        var n := Least(a.value.n, |data| - off);
        var i := disk.Now()[TmpOf(path)];
        disk := disk.Put(i, disk.files[i].(bytes := disk.files[i].bytes + data[off..off + n], synced := false));
        off := off + n;
      }
      r := Commit(path);
    }

    method Commit(path: string) returns (r: Outcome)
      requires Opened(disk, TmpOf(path))
      modifies this
      ensures (disk, r) == Finish(old(disk), path, old(answers))
    {
      hide TmpOf, CleanUp, SyncName, Rename;
      var a := Ask();
      if a.None? { return Lost; }
      if !a.value.Yes? {
        r := Fail(TmpOf(path));
        return;
      }
      var i := disk.Now()[TmpOf(path)];
      disk := disk.Put(i, disk.files[i].(synced := true));
      a := Ask();
      if a.None? { return Lost; }
      if !a.value.Yes? {
        r := Fail(TmpOf(path));
        return;
      }
      a := Ask();
      if a.None? { return Lost; }
      if !a.value.Yes? {
        r := Fail(TmpOf(path));
        return;
      }
      disk := Rename(disk, TmpOf(path), path);
      r := SyncDirectory();
    }

    method SyncDirectory() returns (r: Outcome)
      requires disk.history != []
      modifies this
      ensures (disk, r) == SyncName(old(disk), old(answers))
    {
      var a := Ask();
      if a.None? { return Lost; }
      if !a.value.Yes? { return NotSynced; }
      a := Ask();
      if a.None? { return Lost; }
      if a.value.Yes? {
        disk := SyncDir(disk);
        return Done;
      }
      return if a.value.Unsupported? then Done else NotSynced;
    }
  }
}
