/**
 * `audit` and `_rotate`: numbered log files, renamed one by one.  The process
 * may stop, or an operation fail, between any two of them.
 */
module AuditRotation {
  datatype Line = Line(text: string, size: nat)

  /** File 0 is the live file; a higher number is older. */
  type Files = map<nat, seq<Line>>

  function File(files: Files, i: nat): seq<Line> {
    if i in files then files[i] else []
  }

  function Size(lines: seq<Line>): nat {
    if lines == [] then 0 else Size(lines[..|lines| - 1]) + lines[|lines| - 1].size
  }

  /** Files `n` down to 0, oldest first. */
  function Retained(files: Files, n: nat): seq<Line> {
    if n == 0 then File(files, 0) else File(files, n) + Retained(files, n - 1)
  }

  predicate Suffix(a: seq<Line>, all: seq<Line>) {
    |a| <= |all| && all[|all| - |a|..] == a
  }

  /** Renaming into a vacant slot: `i` becomes `i + 1`. */
  function Renamed(files: Files, i: nat): Files
    requires i in files
  {
    files[i + 1 := files[i]] - {i}
  }

  lemma {:induction false} RetainedSame(files: Files, other: Files, n: nat)
    requires forall j :: 0 <= j <= n ==> File(files, j) == File(other, j)
    ensures Retained(files, n) == Retained(other, n)
  {
    if n > 0 {
      RetainedSame(files, other, n - 1);
    }
  }

  /** Read from oldest to newest, a rename changes nothing. */
  lemma {:induction false} RenameKeepsLines(files: Files, i: nat, n: nat)
    requires i in files && i + 1 !in files && i + 1 <= n
    ensures Retained(Renamed(files, i), n) == Retained(files, n)
  {
    if n == i + 1 {
      if i > 0 {
        RetainedSame(files, Renamed(files, i), i - 1);
      }
    } else {
      RenameKeepsLines(files, i, n - 1);
    }
  }

  lemma UnlinkDropsOldest(files: Files, n: nat)
    requires n > 0
    ensures Retained(files - {n}, n) == Retained(files, n)[|File(files, n)|..]
  {
    RetainedSame(files, files - {n}, n - 1);
    DropFront(File(files, n), Retained(files, n - 1));
  }

  lemma DropFront(a: seq<Line>, b: seq<Line>)
    ensures (a + b)[|a|..] == b && [] + b == b
  {
  }

  lemma {:induction false} AppendExtends(files: Files, n: nat, line: Line)
    ensures Retained(files[0 := File(files, 0) + [line]], n) == Retained(files, n) + [line]
  {
    if n > 0 {
      AppendExtends(files, n - 1, line);
    }
  }

  lemma SuffixOfSuffix(a: seq<Line>, k: nat, all: seq<Line>)
    requires Suffix(a, all) && k <= |a|
    ensures Suffix(a[k..], all)
  {
  }

  lemma SuffixGrows(a: seq<Line>, all: seq<Line>, line: Line)
    requires Suffix(a, all)
    ensures Suffix(a + [line], all + [line])
  {
  }

  lemma SizeSnoc(lines: seq<Line>, line: Line)
    ensures Size(lines + [line]) == Size(lines) + line.size
  {
    assert (lines + [line])[..|lines|] == lines;
  }

  /** No file outgrows the limit, except one that holds a single line. */
  ghost predicate Sized(files: Files, maxBytes: nat) {
    forall i :: i in files ==> Size(files[i]) <= maxBytes || |files[i]| <= 1
  }

  lemma RenameKeepsSizes(files: Files, index: nat, backups: nat, maxBytes: nat)
    requires index in files && index < backups && forall i :: i in files ==> i <= backups
    ensures index !in Renamed(files, index) && forall i :: i in Renamed(files, index) ==> i <= backups
    ensures Sized(files, maxBytes) ==> Sized(Renamed(files, index), maxBytes)
  {
  }

  class AuditLog {
    const maxBytes: nat
    const backups: nat
    var files: Files
    // every line ever written
    ghost var all: seq<Line>
    // the size of the current file could not be read, once
    ghost var misread: bool

    ghost predicate Valid()
      reads this
    {
      && (forall i :: i in files ==> i <= backups) && Suffix(Retained(files, backups), all)
      && (maxBytes > 0 && backups > 0 && !misread ==> Sized(files, maxBytes))
    }

    constructor (maxBytes: nat, backups: nat)
      ensures Valid() && files == map[] && all == [] && !misread
    {
      this.maxBytes, this.backups, files, all, misread := maxBytes, backups, map[], [], false;
      new;
      EmptyRetains(backups);
    }

    static lemma {:induction false} EmptyRetains(n: nat)
      ensures Retained(map[], n) == []
    {
      if n > 0 {
        EmptyRetains(n - 1);
      }
    }

    /** The operations of `_rotate` in order; `stops` is how many of them happen
        before the process dies or an operation raises. */
    method Shift(stops: nat) returns (done: bool)
      requires Valid() && backups > 0
      modifies `files
      ensures Valid()
      ensures stops > 0 ==> Retained(files, backups) == Retained(old(files), backups)[|File(old(files), backups)|..]
      ensures stops == 0 ==> files == old(files)
      ensures done ==> 0 !in files
      ensures stops > backups ==> done
    {
      if stops == 0 {
        return false;
      }
      ghost var kept := Retained(files, backups)[|File(files, backups)|..];
      UnlinkDropsOldest(files, backups);
      SuffixOfSuffix(Retained(files, backups), |File(files, backups)|, all);
      files := files - {backups};
      var index, left := backups, stops - 1;
      while index > 0
        invariant 0 <= index <= backups && index !in files && (forall i :: i in files ==> i <= backups)
        invariant Retained(files, backups) == kept && (maxBytes > 0 && !misread ==> Sized(files, maxBytes))
        invariant left + backups >= stops - 1 + index
        decreases index
      {
        if left == 0 {
          return false;
        }
        left, index := left - 1, index - 1;
        if index in files {
          RenameKeepsLines(files, index, backups);
          RenameKeepsSizes(files, index, backups, maxBytes);
          files := Renamed(files, index);
        }
      }
      return true;
    }

    /** What `_rotate` takes for the size: 0 when it cannot be read. */
    function Measured(unread: bool): nat
      reads this
    {
      if unread then 0 else Size(File(files, 0))
    }

    /** `_rotate`: a size that cannot be read may leave a file over the limit, but
        never loses a line. */
    method Rotate(incoming: nat, stops: nat, unread: bool) returns (ok: bool)
      requires Valid()
      modifies `files, `misread
      ensures Valid() && misread == (old(misread) || unread)
      ensures maxBytes == 0 || backups == 0 || old(Measured(unread)) + incoming <= maxBytes ==> ok && files == old(files)
      ensures ok && maxBytes > 0 && backups > 0 && old(Measured(unread)) + incoming > maxBytes ==> 0 !in files
      ensures Retained(files, backups) == Retained(old(files), backups)
              || Retained(files, backups) == Retained(old(files), backups)[|File(old(files), backups)|..]
      ensures stops > backups ==> ok
    {
      misread := misread || unread;
      if maxBytes == 0 || backups == 0 || Measured(unread) + incoming <= maxBytes {
        return true;
      }
      ok := Shift(stops);
    }

    method Append(line: Line)
      requires Valid()
      requires maxBytes > 0 && backups > 0 && !misread ==> Size(File(files, 0)) + line.size <= maxBytes || 0 !in files
      modifies `files, `all
      ensures Valid() && all == old(all) + [line]
      ensures Retained(files, backups) == Retained(old(files), backups) + [line]
    {
      SizeSnoc(File(files, 0), line);
      AppendExtends(files, backups, line);
      SuffixGrows(Retained(files, backups), all, line);
      files := files[0 := File(files, 0) + [line]];
      all := all + [line];
    }

    /** `audit`: a line is written at the end, or not at all; what is kept is
        always an unbroken run of the newest lines. */
    method Audit(line: Line, stops: nat, unread: bool, fails: bool) returns (written: bool)
      requires Valid()
      modifies `files, `all, `misread
      ensures Valid() && all == (if written then old(all) + [line] else old(all))
      ensures written ==> Retained(files, backups) != [] && Retained(files, backups)[|Retained(files, backups)| - 1] == line
      ensures stops > backups && !fails ==> written
    {
      var ok := Rotate(line.size, stops, unread);
      if !ok || fails {
        return false;
      }
      Append(line);
      return true;
    }
  }
}
