/** The flash volume: a write goes to a temporary file that is then renamed over
    the target. The power may fail between any two steps. */
module DeviceStorage {
  import opened Bits
  import opened Wrappers

  type Path = string
  type Files = map<Path, seq<Byte>>

  const TEMP_SUFFIX: string := ".tmp"

  /** How the volume treats one write: whether the temporary file opens, how many
      bytes it takes, and whether the rename succeeds. */
  datatype Fate = Fate(opens: bool, accepts: nat, renames: bool)

  function Lookup(files: Files, path: Path): Option<seq<Byte>> {
    if path in files then Some(files[path]) else None
  }

  function Temp(path: Path): (tmp: Path)
    ensures tmp != path
  {
    assert |path + TEMP_SUFFIX| > |path|;
    path + TEMP_SUFFIX
  }

  function Taken(data: seq<Byte>, fate: Fate): (n: nat)
    ensures n <= |data|
  {
    if fate.accepts < |data| then fate.accepts else |data|
  }

  /** The temporary file byte by byte, from empty to all that was taken. */
  function Partial(files: Files, path: Path, data: seq<Byte>, n: nat): (states: seq<Files>)
    requires n <= |data|
    ensures |states| == n + 1
    ensures forall i :: 0 <= i <= n ==> states[i] == files[Temp(path) := data[..i]]
  {
    seq(n + 1, i requires 0 <= i <= n => files[Temp(path) := data[..i]])
  }

  lemma PartialGrows(files: Files, path: Path, data: seq<Byte>, n: nat)
    requires n < |data|
    ensures Partial(files, path, data, n + 1) == Partial(files, path, data, n) + [files[Temp(path) := data[..n + 1]]]
  {}

  /** Every state the volume passes through while one write runs, in order. */
  function Trace(files: Files, path: Path, data: seq<Byte>, fate: Fate): seq<Files> {
    var n := Taken(data, fate);
    if !fate.opens then []
    else if n < |data| then Partial(files, path, data, n) + [files - {Temp(path)}]
    else
      Partial(files, path, data, n)
      + [files[Temp(path) := data] - {path}]
      + [if fate.renames then (files - {Temp(path)})[path := data] else files - {path, Temp(path)}]
  }

  predicate WriteSucceeds(data: seq<Byte>, fate: Fate) {
    fate.opens && Taken(data, fate) == |data| && fate.renames
  }

  function Last(files: Files, states: seq<Files>): Files {
    if |states| == 0 then files else states[|states| - 1]
  }

  /** Whatever step the power fails after, the target holds exactly its old content,
      exactly the new content, or nothing; nothing only between the removal and the
      rename, or after a rename that failed. Other files never change. */
  lemma CrashAtomic(files: Files, path: Path, data: seq<Byte>, fate: Fate, k: nat)
    requires k < |Trace(files, path, data, fate)|
    ensures var s := Trace(files, path, data, fate)[k];
            && Lookup(s, path)
               == (if k <= |data| || Taken(data, fate) < |data| then Lookup(files, path)
                   else if k == |data| + 1 || !fate.renames then None
                   else Some(data))
            && (forall p :: p != path && p != Temp(path) ==> Lookup(s, p) == Lookup(files, p))
  {
    var n := Taken(data, fate);
    var states := Partial(files, path, data, n);
    if k <= n {
      assert Trace(files, path, data, fate)[k] == states[k];
    }
  }

  /** A completed write left the new content; a failed one the old, or nothing when
      it was the rename that failed. */
  lemma WriteOutcome(files: Files, path: Path, data: seq<Byte>, fate: Fate)
    requires |data| > 0
    ensures var after := Lookup(Last(files, Trace(files, path, data, fate)), path);
            && (WriteSucceeds(data, fate) ==> after == Some(data))
            && (!WriteSucceeds(data, fate) ==>
                  after == if fate.opens && Taken(data, fate) == |data| then None else Lookup(files, path))
  {
    var states := Trace(files, path, data, fate);
    if |states| > 0 {
      CrashAtomic(files, path, data, fate, |states| - 1);
    }
  }

  class Flash {
    var mounted: bool
    var files: Files
    /** Every state the volume has been in, the present one last. */
    ghost var history: seq<Files>

    ghost predicate Valid()
      reads this
    {
      |history| > 0 && history[|history| - 1] == files
    }

    constructor (mounted: bool, files: Files)
      ensures Valid() && this.mounted == mounted && this.files == files && history == [files]
    {
      this.mounted := mounted;
      this.files := files;
      history := [files];
    }

    method Store(path: Path, data: seq<Byte>)
      requires Valid()
      modifies this`files, this`history
      ensures Valid() && files == old(files)[path := data] && history == old(history) + [files]
    {
      files := files[path := data];
      history := history + [files];
    }

    method Remove(path: Path)
      requires Valid()
      modifies this`files, this`history
      ensures Valid() && files == old(files) - {path} && history == old(history) + [files]
    {
      files := files - {path};
      history := history + [files];
    }

    method Rename(from: Path, to: Path)
      requires Valid() && from in files && from != to
      modifies this`files, this`history
      ensures Valid() && files == (old(files) - {from})[to := old(files)[from]] && history == old(history) + [files]
    {
      files := (files - {from})[to := files[from]];
      history := history + [files];
    }

    method Read(path: Path, capacity: nat) returns (data: Option<seq<Byte>>)
      ensures data == if mounted && path in files && 0 < |files[path]| <= capacity then Some(files[path]) else None
    {
      if !mounted || path !in files {
        return None;
      }
      if |files[path]| == 0 || |files[path]| > capacity {
        return None;
      }
      return Some(files[path]);
    }

    /** f.write on the freshly opened temporary file. */
    method Fill(path: Path, data: seq<Byte>, fate: Fate) returns (written: nat)
      requires Valid()
      modifies this`files, this`history
      ensures Valid() && written == Taken(data, fate)
      ensures files == old(files)[Temp(path) := data[..written]]
      ensures history == old(history) + Partial(old(files), path, data, written)
    {
      ghost var was := files;
      var tmp := Temp(path);
      Store(tmp, []);
      written := 0;
      while written < |data| && written < fate.accepts
        invariant written <= Taken(data, fate) && Valid()
        invariant files == was[tmp := data[..written]]
        invariant history == old(history) + Partial(was, path, data, written)
      {
        written := written + 1;
        Store(tmp, data[..written]);
        assert files == was[tmp := data[..written]];
        PartialGrows(was, path, data, written - 1);
      }
    }

    method Write(path: Path, data: seq<Byte>, fate: Fate) returns (ok: bool)
      requires Valid()
      modifies this`files, this`history
      ensures Valid()
      ensures ok <==> mounted && |data| > 0 && WriteSucceeds(data, fate)
      ensures !mounted || |data| == 0 ==> files == old(files) && history == old(history)
      ensures mounted && |data| > 0 ==>
                && history == old(history) + Trace(old(files), path, data, fate)
                && files == Last(old(files), Trace(old(files), path, data, fate))
    {
      if !mounted || |data| == 0 {
        return false;
      }
      if !fate.opens {
        return false;
      }
      var tmp := Temp(path);
      ghost var was := files;
      var written := Fill(path, data, fate);
      if written != |data| {
        Remove(tmp);
        assert files == was - {tmp};
        return false;
      }
      assert data[..written] == data;
      ok := Replace(was, path, data, fate);
    }

    /** rename() will not replace an existing file, so the target goes first. */
    method Replace(ghost was: Files, path: Path, data: seq<Byte>, fate: Fate) returns (ok: bool)
      requires Valid() && files == was[Temp(path) := data]
      modifies this`files, this`history
      ensures Valid() && ok == fate.renames
      ensures files == if ok then (was - {Temp(path)})[path := data] else was - {path, Temp(path)}
      ensures history == old(history) + [was[Temp(path) := data] - {path}] + [files]
    {
      var tmp := Temp(path);
      Remove(path);
      if !fate.renames {
        Remove(tmp);
        assert files == was - {path, tmp};
        return false;
      }
      Rename(tmp, path);
      assert files == (was - {tmp})[path := data];
      return true;
    }
  }
}
