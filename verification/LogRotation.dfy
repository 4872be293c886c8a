/** Rotation of the local audit log (app/local_compute/audit_log.py). Slot 0 is the current file and slot n its n-th
    backup; a line is its text. A process may be killed before any single file operation. */
module LogRotation {

  type Files = map<nat, seq<string>>

  function Lines(files: Files, slot: nat): seq<string> {
    if slot in files then files[slot] else []
  }

  /** The slots from `top` down to the current file, read one after the other. */
  function Reading(files: Files, top: nat): seq<string> {
    Lines(files, top) + if top == 0 then [] else Reading(files, top - 1)
  }

  function Size(lines: seq<string>): nat {
    if lines == [] then 0 else Size(lines[..|lines| - 1]) + |lines[|lines| - 1]|
  }

  /** The highest slot rotation ever fills: one backup is kept even for a count of 0. */
  function Top(backupCount: nat): nat {
    if backupCount == 0 then 1 else backupCount
  }

  ghost predicate Suffix(part: seq<string>, whole: seq<string>) {
    |part| <= |whole| && whole[|whole| - |part|..] == part
  }

  function Renamed(files: Files, from: nat): Files
    requires from in files
  {
    (files - {from})[from + 1 := files[from]]
  }

  // ---------- what single operations do to the reading ----------

  lemma {:induction false} ReadingSame(files: Files, files': Files, top: nat)
    requires forall k: nat | k <= top :: Lines(files, k) == Lines(files', k)
    ensures Reading(files, top) == Reading(files', top)
  {
    if top > 0 { ReadingSame(files, files', top - 1); }
  }

  /** The slots under two given ones. */
  function Below(files: Files, slot: nat): seq<string> {
    if slot == 0 then [] else Reading(files, slot - 1)
  }

  lemma Unfolded(files: Files, slot: nat)
    ensures Reading(files, slot) == Lines(files, slot) + Below(files, slot)
    ensures Below(files, slot + 1) == Reading(files, slot)
  {
  }

  lemma RenamedLines(files: Files, from: nat)
    requires from in files
    ensures Lines(Renamed(files, from), from) == [] && Lines(Renamed(files, from), from + 1) == Lines(files, from)
    ensures Below(Renamed(files, from), from) == Below(files, from)
  {
    if from > 0 { ReadingSame(files, Renamed(files, from), from - 1); }
  }

  lemma NothingBetween(lines: seq<string>, below: seq<string>)
    ensures [] + (lines + below) == lines + below == lines + ([] + below)
  {
    assert [] + below == below;
  }

  lemma RenameAtTop(files: Files, from: nat)
    requires from in files && Lines(files, from + 1) == []
    ensures Reading(Renamed(files, from), from + 1) == Reading(files, from + 1)
  {
    hide Reading, Lines, Below, Renamed;
    RenamedLines(files, from);
    Unfolded(files, from);
    Unfolded(files, from + 1);
    Unfolded(Renamed(files, from), from);
    Unfolded(Renamed(files, from), from + 1);
    NothingBetween(Lines(files, from), Below(files, from));
  }

  /** Moving a file into the free slot above it changes nothing for a reader. */
  lemma {:induction false} RenameIsInvisible(files: Files, from: nat, top: nat)
    requires from in files && from < top && Lines(files, from + 1) == []
    ensures Reading(Renamed(files, from), top) == Reading(files, top)
  {
    if top == from + 1 {
      RenameAtTop(files, from);
    } else {
      RenameIsInvisible(files, from, top - 1);
    }
  }

  /** Removing the oldest file drops its lines from the front. */
  lemma DropTop(files: Files, top: nat)
    requires top > 0
    ensures Reading(files - {top}, top) == Reading(files, top)[|Lines(files, top)|..]
  {
    ReadingSame(files, files - {top}, top - 1);
  }

  /** Replacing the only backup by the current file drops the backup's lines. */
  lemma ReplaceOnly(files: Files)
    requires 0 in files
    ensures Reading(Renamed(files, 0), 1) == Reading(files, 1)[|Lines(files, 1)|..]
  {
    assert Reading(files, 0) == files[0] && Reading(Renamed(files, 0), 0) == [];
  }

  /** A new line comes last. */
  lemma {:induction false} AppendIsLast(files: Files, line: string, top: nat)
    ensures Reading(files[0 := Lines(files, 0) + [line]], top) == Reading(files, top) + [line]
  {
    if top > 0 { AppendIsLast(files, line, top - 1); }
  }

  lemma SuffixDrop(part: seq<string>, whole: seq<string>, n: nat)
    requires Suffix(part, whole) && n <= |part|
    ensures Suffix(part[n..], whole)
  {
  }

  // ---------- the log ----------

  class LocalAuditLog {
    const maxBytes: nat
    const backupCount: nat
    var files: Files
    /** Every line ever appended, in order. */
    ghost var written: seq<string>

    constructor (maxBytes: nat, backupCount: nat)
      ensures this.maxBytes == maxBytes && this.backupCount == backupCount && Valid() && written == [] && files == map[]
    {
      this.maxBytes, this.backupCount, files, written := maxBytes, backupCount, map[], [];
      new;
      NoLines(Top(backupCount));
    }

    ghost function Read(): seq<string>
      reads this
    {
      Reading(files, Top(backupCount))
    }

    /** Backups oldest first and then the current file are an order-keeping suffix of everything ever written, and
        there are never more backups than the count (one for a count of 0). */
    ghost predicate Valid()
      reads this
    {
      && Suffix(Read(), written)
      && (forall k | k in files :: k <= Top(backupCount))
    }

    /** Rotation, killed before its operation number `alive`. */
    method RotateIfNeeded(alive: nat) returns (left: nat, killed: bool)
      requires Valid()
      modifies this`files
      ensures Valid() && (killed ==> left == 0)
      ensures 0 !in old(files) || Size(old(files)[0]) < maxBytes ==> files == old(files) && !killed && left == alive
      ensures !(0 !in old(files) || Size(old(files)[0]) < maxBytes) && !killed ==>
        0 !in files && Read() == old(Read())[|Lines(old(files), Top(backupCount))|..]
      ensures Read() == old(Read()) || Read() == old(Read())[|Lines(old(files), Top(backupCount))|..]
    {
      left, killed := alive, false;
      if 0 !in files || Size(files[0]) < maxBytes {
        return;
      }
      var top := Top(backupCount);
      if left == 0 {
        return 0, true;
      }
      left := left - 1;
      // For a count of 0 this is the file with suffix .0, which never exists.
      if backupCount > 0 {
        DropTop(files, top);
        SuffixDrop(Read(), written, |Lines(files, top)|);
        files := files - {backupCount};
      }
      var number := if backupCount > 0 then backupCount - 1 else 0;
      while number > 0
        invariant 0 <= number <= top && Valid() && 0 in files && files[0] == old(files)[0]
        invariant backupCount > 0 ==> number < top && number + 1 !in files
        invariant Read() == if backupCount > 0 then old(Read())[|Lines(old(files), top)|..] else old(Read())
        invariant backupCount == 0 ==> files == old(files)
        invariant !killed
        decreases number
      {
        if number in files {
          if left == 0 {
            return 0, true;
          }
          left := left - 1;
          RenameIsInvisible(files, number, top);
          files := Renamed(files, number);
        }
        number := number - 1;
      }
      if left == 0 {
        return 0, true;
      }
      left := left - 1;
      if backupCount > 0 {
        RenameIsInvisible(files, 0, top);
      } else {
        ReplaceOnly(files);
        SuffixDrop(Read(), written, |Lines(files, top)|);
      }
      files := Renamed(files, 0);
    }

    method Write(line: string, alive: nat) returns (ok: bool)
      requires Valid()
      modifies this`files, this`written
      ensures Valid()
      ensures written == old(written) + if ok then [line] else []
      ensures ok && (0 !in old(files) || Size(old(files)[0]) < maxBytes) ==> Read() == old(Read()) + [line]
      ensures ok ==> Read() == old(Read()) + [line]
                     || Read() == old(Read())[|Lines(old(files), Top(backupCount))|..] + [line]
    {
      hide Reading, Size, Suffix;
      var left, killed := RotateIfNeeded(alive);
      if killed || left == 0 {
        return false;
      }
      AppendIsLast(files, line, Top(backupCount));
      SuffixAppend(Read(), written, line);
      files := files[0 := Lines(files, 0) + [line]];
      written := written + [line];
      ok := true;
    }
  }

  lemma SuffixAppend(part: seq<string>, whole: seq<string>, line: string)
    requires Suffix(part, whole)
    ensures Suffix(part + [line], whole + [line])
  {
    var n := |whole| - |part|;
    assert (whole + [line])[n..] == whole[n..] + [line];
  }

  lemma {:induction false} NoLines(top: nat)
    ensures Reading(map[], top) == []
  {
    if top > 0 { NoLines(top - 1); }
  }
}
