/** The bounded timeline and rotating file history of app/diagnostics.py. */
module Diagnostics {
  import opened Outcomes

  /** A recorded item as its line of text, without the line end. */
  datatype Item = Item(line: string, severity: string)

  /** The current file, if it exists, and the numbered backups that exist. */
  datatype Files = Files(current: Option<seq<Item>>, backups: map<nat, seq<Item>>)

  function Size(items: seq<Item>): nat {
    if items == [] then 0 else |items[0].line| + 1 + Size(items[1..])
  }

  /** The items as text. */
  function Text(items: seq<Item>): string {
    if items == [] then [] else items[0].line + "\n" + Text(items[1..])
  }

  lemma {:induction false} SizeOfText(items: seq<Item>)
    ensures |Text(items)| == Size(items)
  {
    if items != [] {
      SizeOfText(items[1..]);
    }
  }

  function LastOf<T>(s: seq<T>, n: nat): seq<T> {
    if |s| <= n then s else s[|s| - n..]
  }

  // ---------- the history the files hold ----------

  function At(backups: map<nat, seq<Item>>, i: nat): seq<Item> {
    if i in backups then backups[i] else []
  }

  /** Backups `k` down to 1, oldest first. */
  function Backed(backups: map<nat, seq<Item>>, k: nat): seq<Item> {
    if k == 0 then [] else At(backups, k) + Backed(backups, k - 1)
  }

  function Current(files: Files): seq<Item> {
    if files.current.Some? then files.current.value else []
  }

  /** The highest number a backup can have; with no backups asked for there is still one. */
  function Highest(backupCount: nat): nat {
    if backupCount == 0 then 1 else backupCount
  }

  /** Reading the backups oldest to newest and then the current file. */
  function History(files: Files, backupCount: nat): seq<Item> {
    Backed(files.backups, Highest(backupCount)) + Current(files)
  }

  predicate Numbered(files: Files, backupCount: nat) {
    forall i | i in files.backups :: 1 <= i <= Highest(backupCount)
  }

  predicate IsSuffix<T(==)>(s: seq<T>, all: seq<T>) {
    |s| <= |all| && all[|all| - |s|..] == s
  }

  lemma {:induction false} SelfSuffix<T>(a: seq<T>)
    ensures IsSuffix(a, a)
  {
  }

  lemma {:induction false} SuffixTransitive<T>(a: seq<T>, b: seq<T>, c: seq<T>)
    requires IsSuffix(a, b) && IsSuffix(b, c)
    ensures IsSuffix(a, c)
  {
  }

  lemma {:induction false} SuffixOfLonger<T>(a: seq<T>, b: seq<T>, more: seq<T>)
    requires IsSuffix(a, b)
    ensures IsSuffix(a + more, b + more)
  {
  }

  lemma {:induction false} Same(a: map<nat, seq<Item>>, b: map<nat, seq<Item>>, k: nat)
    requires forall i: nat | 1 <= i <= k :: At(a, i) == At(b, i)
    ensures Backed(a, k) == Backed(b, k)
  {
    if k > 0 {
      Same(a, b, k - 1);
    }
  }

  function Moved(backups: map<nat, seq<Item>>, i: nat): map<nat, seq<Item>>
    requires i in backups
  {
    (backups - {i})[i + 1 := backups[i]]
  }

  /** Renaming a backup to the next number, when that is free, leaves the history as it was. */
  lemma {:induction false} MoveKeepsBacked(backups: map<nat, seq<Item>>, i: nat, k: nat)
    requires 1 <= i < k && i in backups && i + 1 !in backups
    ensures Backed(Moved(backups, i), k) == Backed(backups, k)
    decreases k
  {
    var after := Moved(backups, i);
    if k == i + 1 {
      Same(after, backups, i - 1);
      assert Backed(after, k) == backups[i] + ([] + Backed(after, i - 1));
      assert Backed(backups, k) == [] + (backups[i] + Backed(backups, i - 1));
    } else {
      MoveKeepsBacked(backups, i, k - 1);
    }
  }

  /** Deleting the highest backup drops the oldest part. */
  lemma {:induction false} DropOldest(backups: map<nat, seq<Item>>, k: nat)
    requires k >= 1
    ensures Backed(backups, k) == At(backups, k) + Backed(backups - {k}, k)
  {
    Same(backups - {k}, backups, k - 1);
    assert At(backups - {k}, k) == [];
    assert Backed(backups - {k}, k) == Backed(backups, k - 1);
  }

  /** A free first backup takes the current file's items, behind all the others. */
  lemma {:induction false} FirstBackup(backups: map<nat, seq<Item>>, items: seq<Item>, k: nat)
    requires k >= 1 && 1 !in backups
    ensures Backed(backups[1 := items], k) == Backed(backups, k) + items
    decreases k
  {
    var after := backups[1 := items];
    if k == 1 {
      assert Backed(after, 0) == [] && Backed(backups, 0) == [];
      assert Backed(after, 1) == items && Backed(backups, 1) == [];
    } else {
      FirstBackup(backups, items, k - 1);
      assert At(after, k) == At(backups, k);
      hide At;
      Regroup(At(backups, k), Backed(backups, k - 1), items);
    }
  }

  lemma {:induction false} Regroup<T>(a: seq<T>, b: seq<T>, c: seq<T>)
    ensures a + (b + c) == a + b + c
  {
  }

  // ---------- file operations, which may fail ----------

  /** `operations` is how many file operations succeed before one fails; None afterwards means one has failed. */
  datatype Shifted = Shifted(backups: map<nat, seq<Item>>, left: Option<nat>)

  datatype Rotation = Rotation(files: Files, left: Option<nat>)

  datatype Appended = Appended(files: Files, stored: bool)

  /** Backups `i` down to 1 move up by one. */
  function ShiftFrom(backups: map<nat, seq<Item>>, i: nat, operations: nat): Shifted
    decreases i
  {
    if i == 0 then Shifted(backups, Some(operations))
    else if i !in backups then ShiftFrom(backups, i - 1, operations)
    else if operations == 0 then Shifted(backups, None)
    else ShiftFrom(Moved(backups, i), i - 1, operations - 1)
  }

  function Below(n: nat): nat {
    if n == 0 then 0 else n - 1
  }

  function DeleteAndShift(backups: map<nat, seq<Item>>, backupCount: nat, operations: nat): Shifted {
    if backupCount !in backups then ShiftFrom(backups, Below(backupCount), operations)
    else if operations == 0 then Shifted(backups, None)
    else ShiftFrom(backups - {backupCount}, Below(backupCount), operations - 1)
  }

  function Rotate(files: Files, backupCount: nat, operations: nat): Rotation
    requires files.current.Some?
  {
    var shifted := DeleteAndShift(files.backups, backupCount, operations);
    if shifted.left.None? || shifted.left.value == 0 then Rotation(files.(backups := shifted.backups), None)
    else Rotation(Files(None, shifted.backups[1 := files.current.value]), Some(shifted.left.value - 1))
  }

  predicate Full(files: Files, limit: nat) {
    files.current.Some? && Size(files.current.value) >= limit
  }

  function WithLine(files: Files, item: Item): Files {
    files.(current := Some(Current(files) + [item]))
  }

  function Append(files: Files, item: Item, limit: nat, backupCount: nat, operations: nat): Appended {
    if Full(files, limit) then
      var rotation := Rotate(files, backupCount, operations);
      if rotation.left.None? || rotation.left.value == 0 then Appended(rotation.files, false)
      else Appended(WithLine(rotation.files, item), true)
    else if operations == 0 then Appended(files, false)
    else Appended(WithLine(files, item), true)
  }

  // ---------- when an item is stored ----------

  /** How many of the backups 1 to `k` exist. */
  function Existing(backups: map<nat, seq<Item>>, k: nat): (n: nat)
    ensures n <= k
  {
    if k == 0 then 0 else (if k in backups then 1 else 0) + Existing(backups, k - 1)
  }

  /** Deleting the oldest backup if it exists, moving each of the others, moving the current file, and writing the line. */
  function Needed(files: Files, limit: nat, backupCount: nat): nat {
    if Full(files, limit) then
      (if backupCount in files.backups then 1 else 0) + Existing(files.backups, Below(backupCount)) + 2
    else 1
  }

  lemma {:induction false} SameExisting(a: map<nat, seq<Item>>, b: map<nat, seq<Item>>, k: nat)
    requires forall i: nat | 1 <= i <= k :: i in a <==> i in b
    ensures Existing(a, k) == Existing(b, k)
  {
    if k > 0 {
      SameExisting(a, b, k - 1);
    }
  }

  lemma {:induction false} ShiftOperations(backups: map<nat, seq<Item>>, i: nat, operations: nat)
    ensures var left := ShiftFrom(backups, i, operations).left;
            left == if operations >= Existing(backups, i) then Some(operations - Existing(backups, i)) else None
    decreases i
  {
    if i > 0 {
      if i !in backups {
        ShiftOperations(backups, i - 1, operations);
      } else if operations > 0 {
        SameExisting(Moved(backups, i), backups, i - 1);
        ShiftOperations(Moved(backups, i), i - 1, operations - 1);
      }
    }
  }

  /** An item is stored exactly when no file operation it needs fails. */
  lemma {:induction false} StoredExactlyWhenNothingFails(files: Files, item: Item, limit: nat, backupCount: nat,
        operations: nat)
    ensures Append(files, item, limit, backupCount, operations).stored <==> operations >= Needed(files, limit, backupCount)
    ensures Needed(files, limit, backupCount) <= backupCount + 3
  {
    var below := Below(backupCount);
    if Full(files, limit) {
      if backupCount !in files.backups {
        ShiftOperations(files.backups, below, operations);
      } else if operations > 0 {
        SameExisting(files.backups - {backupCount}, files.backups, below);
        ShiftOperations(files.backups - {backupCount}, below, operations - 1);
      }
    }
  }

  // ---------- what an append loses ----------

  lemma {:induction false} ShiftKeepsBacked(backups: map<nat, seq<Item>>, i: nat, k: nat, operations: nat)
    requires i + 1 !in backups && i < k
    ensures Backed(ShiftFrom(backups, i, operations).backups, k) == Backed(backups, k)
    decreases i
  {
    if i > 0 {
      if i !in backups {
        ShiftKeepsBacked(backups, i - 1, k, operations);
      } else if operations > 0 {
        MoveKeepsBacked(backups, i, k);
        ShiftKeepsBacked(Moved(backups, i), i - 1, k, operations - 1);
      }
    }
  }

  predicate MovedUp(before: map<nat, seq<Item>>, after: map<nat, seq<Item>>, j: nat) {
    (j + 1 in after <==> j in before) && At(after, j + 1) == At(before, j)
  }

  predicate Stays(before: map<nat, seq<Item>>, after: map<nat, seq<Item>>, j: nat) {
    (j in after <==> j in before) && At(after, j) == At(before, j)
  }

  /** Where each backup is once all have been moved. */
  lemma {:induction false} ShiftedTo(backups: map<nat, seq<Item>>, i: nat, operations: nat)
    requires i + 1 !in backups && ShiftFrom(backups, i, operations).left.Some?
    ensures var after := ShiftFrom(backups, i, operations).backups;
            && (i >= 1 ==> 1 !in after)
            && (forall j: nat | 1 <= j <= i :: MovedUp(backups, after, j))
            && (forall j: nat | j == 0 || j > i + 1 :: Stays(backups, after, j))
    decreases i
  {
    if i > 0 {
      var next := if i in backups then Moved(backups, i) else backups;
      ShiftedTo(next, i - 1, if i in backups then operations - 1 else operations);
      var after := ShiftFrom(backups, i, operations).backups;
      assert after == ShiftFrom(next, i - 1, if i in backups then operations - 1 else operations).backups;
      hide ShiftFrom;
      forall j: nat | 1 <= j <= i
        ensures MovedUp(backups, after, j)
      {
        if j == i {
          assert Stays(next, after, i + 1);
        } else {
          assert MovedUp(next, after, j);
        }
      }
      forall j: nat | j == 0 || j > i + 1
        ensures Stays(backups, after, j)
      {
        assert Stays(next, after, j);
      }
    }
  }

  /** The history loses nothing, or exactly its oldest backup. */
  predicate LosesAtMostOldest(before: Files, after: Files, backupCount: nat) {
    || History(before, backupCount) == History(after, backupCount)
    || History(before, backupCount) == At(before.backups, Highest(backupCount)) + History(after, backupCount)
  }

  lemma {:induction false} DeleteAndShiftLoses(files: Files, backupCount: nat, operations: nat)
    requires backupCount >= 1
    ensures var shifted := DeleteAndShift(files.backups, backupCount, operations);
            && LosesAtMostOldest(files, files.(backups := shifted.backups), backupCount)
            && (shifted.left.Some? ==>
                  && 1 !in shifted.backups
                  && Backed(files.backups, backupCount) == At(files.backups, backupCount) + Backed(shifted.backups, backupCount))
  {
    var backups, below := files.backups, backupCount - 1;
    var shifted := DeleteAndShift(backups, backupCount, operations);
    DropOldest(backups, backupCount);
    if backupCount !in backups {
      assert backups - {backupCount} == backups;
      ShiftKeepsBacked(backups, below, backupCount, operations);
      if shifted.left.Some? {
        ShiftedTo(backups, below, operations);
      }
    } else if operations > 0 {
      var fewer := backups - {backupCount};
      ShiftKeepsBacked(fewer, below, backupCount, operations - 1);
      if shifted.left.Some? {
        ShiftedTo(fewer, below, operations - 1);
      }
      Regroup(At(backups, backupCount), Backed(fewer, backupCount), Current(files));
    }
  }

  lemma {:induction false} RotateLosesOldest(files: Files, backupCount: nat, operations: nat)
    requires files.current.Some?
    ensures var rotation := Rotate(files, backupCount, operations);
            && LosesAtMostOldest(files, rotation.files, backupCount)
            && (rotation.left.Some? ==>
                  && rotation.files.current.None?
                  && History(files, backupCount) == At(files.backups, Highest(backupCount)) + History(rotation.files, backupCount))
  {
    var rotation := Rotate(files, backupCount, operations);
    var shifted := DeleteAndShift(files.backups, backupCount, operations);
    var items := files.current.value;
    if backupCount == 0 {
      Same(shifted.backups, files.backups, 1);
      assert Backed(files.backups, 0) == [] && Backed(files.backups, 1) == At(files.backups, 1) + [];
      assert Backed(shifted.backups[1 := items], 0) == [] && Backed(shifted.backups[1 := items], 1) == items + [];
    } else {
      DeleteAndShiftLoses(files, backupCount, operations);
      if rotation.left.Some? {
        FirstBackup(shifted.backups, items, backupCount);
        Regroup(At(files.backups, backupCount), Backed(shifted.backups, backupCount), items);
        assert Backed(rotation.files.backups, backupCount) + [] == Backed(shifted.backups, backupCount) + items;
      }
    }
  }

  /**
   An item that is stored stands behind the earlier history, of which only the oldest backup may be gone, and only if
   the current file was full; an item that is not stored leaves the history, less at most its oldest backup.
   */
  lemma {:induction false} AppendLosesAtMostOldest(files: Files, item: Item, limit: nat, backupCount: nat, operations: nat)
    ensures var r := Append(files, item, limit, backupCount, operations);
            var before, after := History(files, backupCount), History(r.files, backupCount);
            && (r.stored && !Full(files, limit) ==> after == before + [item])
            && (r.stored && Full(files, limit) ==>
                  r.files.current == Some([item]) && before + [item] == At(files.backups, Highest(backupCount)) + after)
            && (!r.stored ==> LosesAtMostOldest(files, r.files, backupCount))
            && (!r.stored && !Full(files, limit) ==> r.files == files)
  {
    if !Full(files, limit) {
      AddToCurrent(files, item, backupCount);
    } else {
      var rotation := Rotate(files, backupCount, operations);
      RotateLosesOldest(files, backupCount, operations);
      if rotation.left.Some? {
        hide Rotate, Backed;
        AddToCurrent(rotation.files, item, backupCount);
        Regroup(At(files.backups, Highest(backupCount)), History(rotation.files, backupCount), [item]);
        assert [] + [item] == [item];
      }
    }
  }

  // ---------- whole runs ----------

  /** An item to record, and how many file operations succeed for it. */
  datatype Attempt = Attempt(item: Item, operations: nat)

  function ItemsOf(attempts: seq<Attempt>): seq<Item> {
    seq(|attempts|, i requires 0 <= i < |attempts| => attempts[i].item)
  }

  function FilesAfter(files: Files, attempts: seq<Attempt>, limit: nat, backupCount: nat): Files
    decreases |attempts|
  {
    if attempts == [] then files else
      FilesAfter(Append(files, attempts[0].item, limit, backupCount, attempts[0].operations).files, attempts[1..], limit, backupCount)
  }

  /** Of the items recorded, in order, those whose file operations all succeeded. */
  function StoredOf(files: Files, attempts: seq<Attempt>, limit: nat, backupCount: nat): seq<Item>
    decreases |attempts|
  {
    if attempts == [] then [] else
      var first := attempts[0];
      (if first.operations >= Needed(files, limit, backupCount) then [first.item] else [])
      + StoredOf(Append(files, first.item, limit, backupCount, first.operations).files, attempts[1..], limit, backupCount)
  }

  lemma {:induction false} AppendIsASuffix(files: Files, item: Item, limit: nat, backupCount: nat, operations: nat)
    ensures var r := Append(files, item, limit, backupCount, operations);
            IsSuffix(History(r.files, backupCount), History(files, backupCount) + if r.stored then [item] else [])
  {
    AppendLosesAtMostOldest(files, item, limit, backupCount, operations);
    hide History, Append;
    assert History(files, backupCount) + [] == History(files, backupCount);
  }

  /** Over any run, whatever fails, the files hold the end of what there was and what was stored since. */
  lemma {:induction false} HistoryIsASuffix(files: Files, attempts: seq<Attempt>, limit: nat, backupCount: nat)
    ensures IsSuffix(History(FilesAfter(files, attempts, limit, backupCount), backupCount),
                     History(files, backupCount) + StoredOf(files, attempts, limit, backupCount))
    decreases |attempts|
  {
    hide History, Append, IsSuffix, Needed;
    var before := History(files, backupCount);
    if attempts == [] {
      assert before + [] == before;
      SelfSuffix(before);
    } else {
      var first := attempts[0];
      var r := Append(files, first.item, limit, backupCount, first.operations);
      var one, later := if r.stored then [first.item] else [], StoredOf(r.files, attempts[1..], limit, backupCount);
      HistoryIsASuffix(r.files, attempts[1..], limit, backupCount);
      StoredExactlyWhenNothingFails(files, first.item, limit, backupCount, first.operations);
      AppendIsASuffix(files, first.item, limit, backupCount, first.operations);
      SuffixOfLonger(History(r.files, backupCount), before + one, later);
      Regroup(before, one, later);
      var after := FilesAfter(files, attempts, limit, backupCount);
      SuffixTransitive(History(after, backupCount), History(r.files, backupCount) + later, before + one + later);
    }
  }

  /** No file operation of the run fails. */
  predicate NothingFails(attempts: seq<Attempt>, backupCount: nat) {
    forall i | 0 <= i < |attempts| :: attempts[i].operations >= backupCount + 3
  }

  /** Without failures everything recorded is stored. */
  lemma {:induction false} AllAreStored(files: Files, attempts: seq<Attempt>, limit: nat, backupCount: nat)
    requires NothingFails(attempts, backupCount)
    ensures StoredOf(files, attempts, limit, backupCount) == ItemsOf(attempts)
    decreases |attempts|
  {
    if attempts != [] {
      var first := attempts[0];
      StoredExactlyWhenNothingFails(files, first.item, limit, backupCount, first.operations);
      AllAreStored(Append(files, first.item, limit, backupCount, first.operations).files, attempts[1..], limit, backupCount);
      assert ItemsOf(attempts) == [first.item] + ItemsOf(attempts[1..]);
    }
  }

  // ---------- how much is kept ----------

  /** The backups are numbered without gaps, and each was full when it was put away. */
  predicate Packed(files: Files, limit: nat, backupCount: nat) {
    forall i: nat | 1 <= i <= Highest(backupCount) && i in files.backups ::
      Size(files.backups[i]) >= limit && (i > 1 ==> i - 1 in files.backups)
  }

  predicate AllThere(files: Files, backupCount: nat) {
    forall i: nat | 1 <= i <= Highest(backupCount) :: i in files.backups
  }

  lemma {:induction false} NoGaps(files: Files, limit: nat, backupCount: nat, i: nat)
    requires Packed(files, limit, backupCount) && Highest(backupCount) in files.backups && 1 <= i <= Highest(backupCount)
    ensures i in files.backups
    decreases Highest(backupCount) - i
  {
    if i < Highest(backupCount) {
      NoGaps(files, limit, backupCount, i + 1);
      assert i + 1 - 1 == i;
    }
  }

  lemma {:induction false} SizeOfBoth(a: seq<Item>, b: seq<Item>)
    ensures Size(a + b) == Size(a) + Size(b)
  {
    if a == [] {
      assert a + b == b;
    } else {
      assert (a + b)[1..] == a[1..] + b;
      SizeOfBoth(a[1..], b);
    }
  }

  lemma {:induction false} BackedIsLarge(files: Files, limit: nat, backupCount: nat, k: nat)
    requires Packed(files, limit, backupCount) && AllThere(files, backupCount) && k <= Highest(backupCount)
    ensures Size(Backed(files.backups, k)) >= k * limit
    decreases k
  {
    if k > 0 {
      BackedIsLarge(files, limit, backupCount, k - 1);
      SizeOfBoth(At(files.backups, k), Backed(files.backups, k - 1));
      assert k * limit == (k - 1) * limit + limit;
    }
  }

  /** Where the files are after a rotation that succeeds. */
  lemma {:induction false} RotatedTo(files: Files, backupCount: nat, operations: nat)
    requires files.current.Some? && Rotate(files, backupCount, operations).left.Some?
    ensures var after := Rotate(files, backupCount, operations).files;
            && after.current.None? && 1 in after.backups && after.backups[1] == files.current.value
            && forall j: nat | 1 <= j < backupCount :: MovedUp(files.backups, after.backups, j)
  {
    if backupCount >= 1 {
      var fewer := files.backups - {backupCount};
      var shifted := DeleteAndShift(files.backups, backupCount, operations);
      if backupCount !in files.backups {
        assert fewer == files.backups;
        ShiftedTo(fewer, backupCount - 1, operations);
      } else {
        ShiftedTo(fewer, backupCount - 1, operations - 1);
      }
      var after := Rotate(files, backupCount, operations).files;
      hide ShiftFrom, Rotate;
      forall j: nat | 1 <= j < backupCount
        ensures MovedUp(files.backups, after.backups, j)
      {
        assert MovedUp(fewer, shifted.backups, j);
      }
    }
  }

  lemma {:induction false} RotationKeepsPacked(files: Files, limit: nat, backupCount: nat, operations: nat)
    requires Packed(files, limit, backupCount) && Full(files, limit) && Rotate(files, backupCount, operations).left.Some?
    ensures Packed(Rotate(files, backupCount, operations).files, limit, backupCount)
    ensures AllThere(files, backupCount) || Highest(backupCount) in files.backups ==>
              AllThere(Rotate(files, backupCount, operations).files, backupCount)
  {
    RotatedTo(files, backupCount, operations);
    var after := Rotate(files, backupCount, operations).files;
    hide Rotate, Size;
    forall i: nat | 1 <= i <= Highest(backupCount) && i in after.backups
      ensures Size(after.backups[i]) >= limit && (i > 1 ==> i - 1 in after.backups)
    {
      if i > 1 {
        var j := i - 1;
        assert MovedUp(files.backups, after.backups, j);
        if j > 1 {
          assert MovedUp(files.backups, after.backups, j - 1);
        }
      }
    }
    if AllThere(files, backupCount) || Highest(backupCount) in files.backups {
      forall i: nat | 1 <= i <= Highest(backupCount)
        ensures i in after.backups
      {
        if i > 1 {
          var j := i - 1;
          if !AllThere(files, backupCount) {
            NoGaps(files, limit, backupCount, j);
          }
          assert MovedUp(files.backups, after.backups, j);
        }
      }
    }
  }

  /** An append that succeeds keeps the backups packed, and drops something only when all of them are there. */
  lemma {:induction false} AppendKeepsPacked(files: Files, item: Item, limit: nat, backupCount: nat, operations: nat)
    requires Packed(files, limit, backupCount) && operations >= backupCount + 3
    ensures var r := Append(files, item, limit, backupCount, operations);
            && Packed(r.files, limit, backupCount)
            && (AllThere(files, backupCount) ==> AllThere(r.files, backupCount))
            && (History(r.files, backupCount) == History(files, backupCount) + [item] || AllThere(r.files, backupCount))
  {
    StoredExactlyWhenNothingFails(files, item, limit, backupCount, operations);
    AppendLosesAtMostOldest(files, item, limit, backupCount, operations);
    if Full(files, limit) {
      RotationKeepsPacked(files, limit, backupCount, operations);
      var after := History(Append(files, item, limit, backupCount, operations).files, backupCount);
      assert [] + after == after;
    }
    hide Size, Backed, Rotate;
  }

  /** Without failures, either nothing has been dropped or the backups alone hold as many full files as are kept. */
  lemma {:induction false} MuchIsKept(files: Files, attempts: seq<Attempt>, limit: nat, backupCount: nat)
    requires Packed(files, limit, backupCount) && NothingFails(attempts, backupCount)
    ensures var after := FilesAfter(files, attempts, limit, backupCount);
            || History(after, backupCount) == History(files, backupCount) + ItemsOf(attempts)
            || Size(Backed(after.backups, Highest(backupCount))) >= Highest(backupCount) * limit
  {
    PackedAfter(files, attempts, limit, backupCount);
    var after := FilesAfter(files, attempts, limit, backupCount);
    if AllThere(after, backupCount) {
      BackedIsLarge(after, limit, backupCount, Highest(backupCount));
    }
  }

  lemma {:induction false} PackedAfter(files: Files, attempts: seq<Attempt>, limit: nat, backupCount: nat)
    requires Packed(files, limit, backupCount) && NothingFails(attempts, backupCount)
    ensures var after := FilesAfter(files, attempts, limit, backupCount);
            && Packed(after, limit, backupCount)
            && (AllThere(files, backupCount) ==> AllThere(after, backupCount))
            && (AllThere(after, backupCount) || History(after, backupCount) == History(files, backupCount) + ItemsOf(attempts))
    decreases |attempts|
  {
    hide History, Packed, AllThere, Append;
    var before := History(files, backupCount);
    if attempts == [] {
      assert before + ItemsOf(attempts) == before;
    } else {
      var first := attempts[0];
      AppendKeepsPacked(files, first.item, limit, backupCount, first.operations);
      PackedAfter(Append(files, first.item, limit, backupCount, first.operations).files, attempts[1..], limit, backupCount);
      assert ItemsOf(attempts) == [first.item] + ItemsOf(attempts[1..]);
      Regroup(before, [first.item], ItemsOf(attempts[1..]));
    }
  }

  // ---------- the recorder ----------

  class DiagnosticRecorder {
    const memoryLimit: nat
    const fileLimitBytes: nat
    const backupCount: nat
    var files: Files
    /** The in-memory timeline. */
    var events: seq<Item>

    /** The timeline starts with the end of the current file. */
    constructor (memoryLimit: nat, fileLimitBytes: nat, backupCount: nat, files: Files)
      ensures this.memoryLimit == memoryLimit && this.fileLimitBytes == fileLimitBytes && this.backupCount == backupCount
      ensures this.files == files && events == LastOf(Current(files), memoryLimit)
    {
      this.memoryLimit, this.fileLimitBytes, this.backupCount := memoryLimit, fileLimitBytes, backupCount;
      this.files := files;
      events := if files.current.Some? then LastOf(files.current.value, memoryLimit) else [];
    }

    /** Keep an item; a failing file operation is swallowed. */
    method Record(item: Item, operations: nat) returns (stored: bool)
      modifies this
      ensures events == LastOf(old(events) + [item], memoryLimit)
      ensures stored <==> operations >= Needed(old(files), fileLimitBytes, backupCount)
      ensures Appended(files, stored) == Append(old(files), item, fileLimitBytes, backupCount, operations)
    {
      events := LastOf(events + [item], memoryLimit);
      StoredExactlyWhenNothingFails(files, item, fileLimitBytes, backupCount, operations);
      stored := AppendLine(item, operations);
    }

    /** Rotate if the current file is full, then write the line. */
    method AppendLine(item: Item, operations: nat) returns (stored: bool)
      modifies `files
      ensures Appended(files, stored) == Append(old(files), item, fileLimitBytes, backupCount, operations)
    {
      hide Rotate;
      var left := Some(operations);
      if files.current.Some? && Size(files.current.value) >= fileLimitBytes {
        left := RotateFiles(operations);
      }
      if left.None? || left.value == 0 {
        return false;
      }
      files := files.(current := Some(Current(files) + [item]));
      return true;
    }

    /** Shift every file one number up; the highest is deleted first. */
    method RotateFiles(operations: nat) returns (left: Option<nat>)
      requires files.current.Some?
      modifies `files
      ensures Rotation(files, left) == Rotate(old(files), backupCount, operations)
    {
      left := Some(operations);
      if backupCount in files.backups {
        if operations == 0 {
          return None;
        }
        files := files.(backups := files.backups - {backupCount});
        left := Some(operations - 1);
      }
      left := ShiftBackups(left.value);
      if left.None? || left.value == 0 {
        return None;
      }
      files := Files(None, files.backups[1 := files.current.value]);
      return Some(left.value - 1);
    }

    /** Backups `backupCount - 1` down to 1 move up by one. */
    method ShiftBackups(operations: nat) returns (left: Option<nat>)
      modifies `files
      ensures files.current == old(files).current
      ensures Shifted(files.backups, left) == ShiftFrom(old(files).backups, Below(backupCount), operations)
    {
      var remaining := operations;
      var index := backupCount - 1;
      while index > 0
        invariant backupCount == 0 ==> index == -1
        invariant backupCount > 0 ==> 0 <= index < backupCount
        invariant files.current == old(files).current
        invariant ShiftFrom(files.backups, if index < 0 then 0 else index, remaining)
               == ShiftFrom(old(files).backups, Below(backupCount), operations)
      {
        if index in files.backups {
          if remaining == 0 {
            return None;
          }
          files := files.(backups := Moved(files.backups, index));
          remaining := remaining - 1;
        }
        index := index - 1;
      }
      return Some(remaining);
    }

    /** The latest items, of one severity if it is given. */
    method Recent(limit: int, severity: Option<string>) returns (items: seq<Item>)
      ensures exists picked :: LatestMatching(events, severity, Bounded(limit, memoryLimit), items, picked)
    {
      var bounded := Bounded(limit, memoryLimit);
      items := if Filters(severity) then OfSeverity(events, severity.value) else events;
      items := LastOf(items, bounded);
      LatestAreMatching(events, severity, bounded);
    }
  }

  /** Over any run of records the files and the timeline are those of the run. */
  method RecordAll(recorder: DiagnosticRecorder, attempts: seq<Attempt>) returns (stored: seq<Item>)
    modifies recorder
    ensures recorder.files == FilesAfter(old(recorder.files), attempts, recorder.fileLimitBytes, recorder.backupCount)
    ensures stored == StoredOf(old(recorder.files), attempts, recorder.fileLimitBytes, recorder.backupCount)
    ensures recorder.events ==
              if attempts == [] then old(recorder.events) else LastOf(old(recorder.events) + ItemsOf(attempts), recorder.memoryLimit)
    ensures IsSuffix(History(recorder.files, recorder.backupCount), old(History(recorder.files, recorder.backupCount)) + stored)
    ensures NothingFails(attempts, recorder.backupCount) ==> stored == ItemsOf(attempts)
  {
    hide LastOf, Append, Needed, History, IsSuffix, NothingFails, ItemsOf;
    HistoryIsASuffix(recorder.files, attempts, recorder.fileLimitBytes, recorder.backupCount);
    if NothingFails(attempts, recorder.backupCount) {
      AllAreStored(recorder.files, attempts, recorder.fileLimitBytes, recorder.backupCount);
    }
    stored := [];
    ghost var files, events, memory := recorder.files, recorder.events, recorder.memoryLimit;
    ghost var limit, n := recorder.fileLimitBytes, recorder.backupCount;
    assert attempts[0..] == attempts;
    for i := 0 to |attempts|
      invariant FilesAfter(recorder.files, attempts[i..], limit, n) == FilesAfter(files, attempts, limit, n)
      invariant stored + StoredOf(recorder.files, attempts[i..], limit, n) == StoredOf(files, attempts, limit, n)
      invariant recorder.events == if i == 0 then events else LastOf(events + ItemsOf(attempts[..i]), memory)
    {
      ghost var now, later := recorder.files, attempts[i..];
      assert later[0] == attempts[i] && later[1..] == attempts[i + 1..];
      var ok := recorder.Record(attempts[i].item, attempts[i].operations);
      LastOfLonger(events, attempts, i, memory);
      Regroup(stored, if ok then [attempts[i].item] else [], StoredOf(recorder.files, attempts[i + 1..], limit, n));
      stored := stored + if ok then [attempts[i].item] else [];
    }
    assert attempts[..|attempts|] == attempts;
    assert stored + [] == stored;
  }

  lemma {:induction false} LastOfLast(s: seq<Item>, item: Item, limit: nat)
    ensures LastOf(LastOf(s, limit) + [item], limit) == LastOf(s + [item], limit)
  {
  }

  lemma {:induction false} LastOfLonger(events: seq<Item>, attempts: seq<Attempt>, i: nat, limit: nat)
    requires i < |attempts|
    ensures LastOf((if i == 0 then events else LastOf(events + ItemsOf(attempts[..i]), limit)) + [attempts[i].item], limit)
         == LastOf(events + ItemsOf(attempts[..i + 1]), limit)
  {
    hide LastOf;
    var before, item := ItemsOf(attempts[..i]), attempts[i].item;
    assert ItemsOf(attempts[..i + 1]) == before + [item];
    Regroup(events, before, [item]);
    LastOfLast(events + before, item, limit);
    if i == 0 {
      assert events + before == events;
    }
  }

  // ---------- how many files there are ----------

  function Count(files: Files): nat {
    |files.backups| + (if files.current.Some? then 1 else 0)
  }

  lemma {:induction false} NoMoreKeys(keys: set<nat>, n: nat)
    requires forall i | i in keys :: 1 <= i <= n
    ensures |keys| <= n
  {
    if n > 0 {
      NoMoreKeys(keys - {n}, n - 1);
    }
  }

  lemma {:induction false} ShiftKeepsNumbered(backups: map<nat, seq<Item>>, i: nat, k: nat, operations: nat)
    requires i < k && forall j | j in backups :: 1 <= j <= k
    ensures forall j | j in ShiftFrom(backups, i, operations).backups :: 1 <= j <= k
    decreases i
  {
    if i > 0 {
      if i !in backups {
        ShiftKeepsNumbered(backups, i - 1, k, operations);
      } else if operations > 0 {
        ShiftKeepsNumbered(Moved(backups, i), i - 1, k, operations - 1);
      }
    }
  }

  /** At most the backups asked for and the current file exist, after any run; one backup, if none are asked for. */
  lemma {:induction false} FilesAreFew(files: Files, attempts: seq<Attempt>, limit: nat, backupCount: nat)
    requires Numbered(files, backupCount)
    ensures var after := FilesAfter(files, attempts, limit, backupCount);
            && Numbered(after, backupCount)
            && Count(after) <= Highest(backupCount) + 1
            && (backupCount >= 1 ==> Count(after) <= backupCount + 1)
    decreases |attempts|
  {
    if attempts == [] {
      NoMoreKeys(files.backups.Keys, Highest(backupCount));
      assert |files.backups| == |files.backups.Keys|;
    } else {
      var first := attempts[0];
      ShiftKeepsNumbered(files.backups, Below(backupCount), Highest(backupCount), first.operations);
      if first.operations > 0 {
        ShiftKeepsNumbered(files.backups - {backupCount}, Below(backupCount), Highest(backupCount), first.operations - 1);
      }
      assert Numbered(Append(files, first.item, limit, backupCount, first.operations).files, backupCount) by {
        hide ShiftFrom, Size;
      }
      FilesAreFew(Append(files, first.item, limit, backupCount, first.operations).files, attempts[1..], limit, backupCount);
    }
  }

  /**
   When no backups are asked for, an append leaves no more than one file exactly if no backup is there and the current
   file is not full, or if a file operation fails at the right moment.
   */
  lemma {:induction false} NoBackupsIff(files: Files, item: Item, limit: nat, operations: nat)
    requires Numbered(files, 0)
    ensures Count(Append(files, item, limit, 0, operations).files) <= 1 <==>
              if Full(files, limit) then operations == 1 || (operations == 0 && 1 !in files.backups)
              else 1 !in files.backups || (operations == 0 && files.current.None?)
  {
    assert files.backups.Keys == if 1 in files.backups then {1} else {};
    assert |files.backups| == |files.backups.Keys|;
    if Full(files, limit) {
      var items := files.current.value;
      assert files.backups[1 := items].Keys == {1};
      assert |files.backups[1 := items]| == |files.backups[1 := items].Keys|;
    }
  }

  /** So a full file is kept as a backup although none are asked for. */
  lemma {:induction false} NoBackupsStillKeepOne(items: seq<Item>, item: Item, limit: nat, operations: nat)
    requires Size(items) >= limit && operations >= 2
    ensures var after := Append(Files(Some(items), map[]), item, limit, 0, operations).files;
            after.backups == map[1 := items] && after.current == Some([item]) && Count(after) == 2
  {
    var after := Append(Files(Some(items), map[]), item, limit, 0, operations).files;
    assert after.backups == map[1 := items];
    assert [] + [item] == [item];
  }

  // ---------- recent items ----------

  function Bounded(limit: int, memoryLimit: nat): nat {
    var low := if limit < memoryLimit then limit else memoryLimit;
    if low < 1 then 1 else low
  }

  function OfSeverity(items: seq<Item>, severity: string): seq<Item> {
    if items == [] then [] else
      var n := |items| - 1;
      var earlier := OfSeverity(items[..n], severity);
      if items[n].severity == severity then earlier + [items[n]] else earlier
  }

  /** An empty severity asks for none in particular. */
  predicate Filters(severity: Option<string>) {
    severity.Some? && severity.value != ""
  }

  predicate Matches(item: Item, severity: Option<string>) {
    Filters(severity) ==> item.severity == severity.value
  }

  /**
   `items` stand at the places `picked` of the timeline, in order; they match, they are as many as the bound and the
   matching items allow, and no matching item after the first of them is left out.
   */
  predicate LatestMatching(events: seq<Item>, severity: Option<string>, bound: nat, items: seq<Item>, picked: seq<nat>) {
    && |picked| == |items| <= bound
    && (forall i | 0 <= i < |picked| :: picked[i] < |events| && items[i] == events[picked[i]] && Matches(items[i], severity))
    && (forall i, j | 0 <= i < j < |picked| :: picked[i] < picked[j])
    && (forall k | 0 <= k < |events| && Matches(events[k], severity) ::
          k in picked || (|items| == bound && forall i | 0 <= i < |picked| :: k < picked[i]))
  }

  /** The places of the matching items. */
  function PlacesOf(events: seq<Item>, severity: Option<string>): seq<nat> {
    if events == [] then [] else
      var n := |events| - 1;
      var earlier := PlacesOf(events[..n], severity);
      if Matches(events[n], severity) then earlier + [n] else earlier
  }

  predicate Increasing(places: seq<nat>) {
    forall i, j | 0 <= i < j < |places| :: places[i] < places[j]
  }

  predicate AllMatch(events: seq<Item>, severity: Option<string>, places: seq<nat>) {
    forall i | 0 <= i < |places| :: places[i] < |events| && Matches(events[places[i]], severity)
  }

  predicate NoneMissing(events: seq<Item>, severity: Option<string>, places: seq<nat>) {
    forall k: nat | k < |events| && Matches(events[k], severity) :: k in places
  }

  predicate StandAt(events: seq<Item>, places: seq<nat>, items: seq<Item>) {
    |items| == |places| && forall i | 0 <= i < |items| :: places[i] < |events| && items[i] == events[places[i]]
  }

  lemma {:induction false} OneMorePlace(events: seq<Item>, item: Item, severity: Option<string>, places: seq<nat>)
    requires AllMatch(events, severity, places) && Increasing(places)
    ensures AllMatch(events + [item], severity, places)
    ensures Matches(item, severity) ==> AllMatch(events + [item], severity, places + [|events|])
    ensures Increasing(places + [|events|])
  {
  }

  lemma {:induction false} StillNoneMissing(events: seq<Item>, item: Item, severity: Option<string>, places: seq<nat>)
    requires NoneMissing(events, severity, places)
    ensures NoneMissing(events + [item], severity, places + [|events|])
    ensures !Matches(item, severity) ==> NoneMissing(events + [item], severity, places)
  {
    var more := events + [item];
    forall k: nat | k < |events| && Matches(more[k], severity)
      ensures k in places
    {
      assert more[k] == events[k];
    }
    assert (places + [|events|])[|places|] == |events|;
  }

  lemma {:induction false} OneMoreItem(events: seq<Item>, item: Item, places: seq<nat>, items: seq<Item>)
    requires StandAt(events, places, items)
    ensures StandAt(events + [item], places, items) && StandAt(events + [item], places + [|events|], items + [item])
  {
  }

  function Filtered(events: seq<Item>, severity: Option<string>): seq<Item> {
    if Filters(severity) then OfSeverity(events, severity.value) else events
  }

  lemma {:induction false} FilteredIsAllMatching(events: seq<Item>, severity: Option<string>)
    ensures var places := PlacesOf(events, severity);
            && Increasing(places) && AllMatch(events, severity, places) && NoneMissing(events, severity, places)
            && StandAt(events, places, Filtered(events, severity))
    decreases |events|
  {
    hide Increasing, AllMatch, NoneMissing, StandAt, Filtered, Matches;
    if events == [] {
      NoPlaces(severity);
      NothingFiltered(severity);
    } else {
      var n := |events| - 1;
      var earlier, last := events[..n], events[n];
      FilteredIsAllMatching(earlier, severity);
      assert events == earlier + [last];
      OneMorePlace(earlier, last, severity, PlacesOf(earlier, severity));
      StillNoneMissing(earlier, last, severity, PlacesOf(earlier, severity));
      OneMoreItem(earlier, last, PlacesOf(earlier, severity), Filtered(earlier, severity));
      FilteredOneMore(earlier, last, severity);
      assert |earlier| == n;
    }
  }

  lemma {:induction false} NothingFiltered(severity: Option<string>)
    ensures Filtered([], severity) == []
  {
  }

  lemma {:induction false} FilteredOneMore(earlier: seq<Item>, last: Item, severity: Option<string>)
    ensures Filtered(earlier + [last], severity) ==
              if Matches(last, severity) then Filtered(earlier, severity) + [last] else Filtered(earlier, severity)
  {
    var events := earlier + [last];
    assert events[..|events| - 1] == earlier;
  }

  lemma {:induction false} NoPlaces(severity: Option<string>)
    ensures Increasing([]) && AllMatch([], severity, []) && NoneMissing([], severity, []) && StandAt([], [], [])
  {
  }

  /** What is not among the last places comes before all of them. */
  lemma {:induction false} LastPlaces(places: seq<nat>, bound: nat, k: nat)
    requires Increasing(places) && k in places
    ensures k in LastOf(places, bound) || (|places| > bound && forall i | 0 <= i < bound :: k < LastOf(places, bound)[i])
  {
    if |places| > bound {
      var picked, skipped := LastOf(places, bound), |places| - bound;
      var p :| 0 <= p < |places| && places[p] == k;
      if p >= skipped {
        assert picked[p - skipped] == k;
      }
    }
  }

  function Skipped(length: nat, n: nat): nat {
    if length <= n then 0 else length - n
  }

  lemma {:induction false} LastOfAt<T>(s: seq<T>, n: nat)
    ensures var skipped := Skipped(|s|, n);
            |LastOf(s, n)| + skipped == |s| && forall i | 0 <= i < |LastOf(s, n)| :: LastOf(s, n)[i] == s[skipped + i]
  {
  }

  lemma {:induction false} LastOnesMatch(events: seq<Item>, severity: Option<string>, places: seq<nat>,
        items: seq<Item>, bound: nat)
    requires Increasing(places) && AllMatch(events, severity, places) && StandAt(events, places, items)
    ensures var picked, latest := LastOf(places, bound), LastOf(items, bound);
            Increasing(picked) && AllMatch(events, severity, picked) && StandAt(events, picked, latest)
  {
    hide Matches, LastOf, Skipped;
    LastOfAt(places, bound);
    LastOfAt(items, bound);
    var picked, latest, skipped := LastOf(places, bound), LastOf(items, bound), Skipped(|places|, bound);
    forall i | 0 <= i < |picked|
      ensures picked[i] < |events| && Matches(events[picked[i]], severity) && latest[i] == events[picked[i]]
    {
      assert picked[i] == places[skipped + i] && latest[i] == items[skipped + i];
    }
    forall i, j | 0 <= i < j < |picked|
      ensures picked[i] < picked[j]
    {
      assert picked[i] == places[skipped + i] && picked[j] == places[skipped + j];
    }
  }

  lemma {:induction false} LatestAreMatching(events: seq<Item>, severity: Option<string>, bound: nat)
    requires bound >= 1
    ensures exists picked :: LatestMatching(events, severity, bound, LastOf(Filtered(events, severity), bound), picked)
  {
    FilteredIsAllMatching(events, severity);
    var places, items := PlacesOf(events, severity), Filtered(events, severity);
    hide PlacesOf, Filtered, Matches;
    LastOnesMatch(events, severity, places, items, bound);
    var picked := LastOf(places, bound);
    forall k: nat | k < |events| && Matches(events[k], severity)
      ensures k in picked || (|places| > bound && forall i | 0 <= i < bound :: k < picked[i])
    {
      LastPlaces(places, bound, k);
    }
    assert LatestMatching(events, severity, bound, LastOf(items, bound), picked);
  }

  lemma {:induction false} AddToCurrent(files: Files, item: Item, backupCount: nat)
    ensures History(WithLine(files, item), backupCount) == History(files, backupCount) + [item]
  {
  }
}
