/** Seeding the generated supervisor with the durable sequence: `with_supervisor_sequence` of app/robot_scripts.py. */
module SupervisorSeed {
  import opened Outcomes

  const MARKER := "global mongo_last_sequence = "

  datatype SeedError = Negative | NoAssignment | MalformedAssignment

  // ---------- decimal text ----------

  function Digit(d: nat): char
    requires d < 10
  {
    '0' + d as char
  }

  function Decimal(n: nat): (s: string)
    ensures s != [] && forall c | c in s :: '0' <= c <= '9'
  {
    if n < 10 then [Digit(n)] else Decimal(n / 10) + [Digit(n % 10)]
  }

  function DigitValue(c: char): nat {
    if '0' <= c <= '9' then (c - '0') as nat else 0
  }

  function Number(s: string): nat {
    if s == [] then 0 else Number(s[..|s| - 1]) * 10 + DigitValue(s[|s| - 1])
  }

  lemma {:induction false} NumberOfDecimal(n: nat)
    ensures Number(Decimal(n)) == n
  {
    var s := Decimal(n);
    if n < 10 {
      assert s[..0] == [];
      assert DigitValue(s[0]) == n;
    } else {
      assert s[..|s| - 1] == Decimal(n / 10);
      NumberOfDecimal(n / 10);
    }
  }

  // ---------- finding text ----------

  predicate OccursAt(script: string, text: string, at: nat) {
    at + |text| <= |script| && script[at..at + |text|] == text
  }

  /** Where the text first occurs, at or after `i`. */
  function Find(script: string, text: string, i: nat): (at: Option<nat>)
    ensures at.Some? ==> at.value >= i && OccursAt(script, text, at.value)
    decreases |script| - i
  {
    if i + |text| > |script| then None
    else if OccursAt(script, text, i) then Some(i)
    else Find(script, text, i + 1)
  }

  lemma {:induction false} FindIsFirst(script: string, text: string, i: nat, k: nat)
    requires i <= k && OccursAt(script, text, k)
    ensures Find(script, text, i).Some? && Find(script, text, i).value <= k
    decreases |script| - i
  {
    if !OccursAt(script, text, i) {
      FindIsFirst(script, text, i + 1, k);
    }
  }

  // ---------- the seed's line ----------

  /** The script around the seed: up to the end of the marker, and from the line's end on. */
  datatype Split = Split(before: string, seed: string, after: string)

  function SplitAt(script: string, marker: string): Result<Split, SeedError> {
    var at := Find(script, marker, 0);
    if at.None? then Failure(NoAssignment) else
      var start := at.value + |marker|;
      var end := Find(script, "\n", start);
      if end.None? then Failure(MalformedAssignment)
      else Success(Split(script[..start], script[start..end.value], script[end.value..]))
  }

  function WithSequence(script: string, sequence: int): Result<string, SeedError> {
    if sequence < 0 then Failure(Negative) else
      var split := SplitAt(script, MARKER);
      if split.Failure? then Failure(split.error)
      else Success(split.value.before + Decimal(sequence) + split.value.after)
  }

  /** A split script is put together again with any digits on the seed's line, and is split there again. */
  lemma {:induction false} SplitAgain(script: string, marker: string, digits: string)
    requires SplitAt(script, marker).Success? && '\n' !in digits
    ensures var s := SplitAt(script, marker).value;
            && script == s.before + s.seed + s.after
            && SplitAt(s.before + digits + s.after, marker) == Success(Split(s.before, digits, s.after))
  {
    var s := SplitAt(script, marker).value;
    var again, at, start := s.before + digits + s.after, Find(script, marker, 0).value, |s.before|;
    assert again[..start] == s.before == script[..start];
    MarkerStays(script, again, marker, at);
    LineEnds(s.before, digits, s.after);
    var end := start + |digits|;
    assert again[start..end] == digits && again[end..] == s.after;
  }

  /** The line end after the digits is the next one. */
  lemma {:induction false} LineEnds(before: string, digits: string, after: string)
    requires '\n' !in digits && OccursAt(after, "\n", 0)
    ensures Find(before + digits + after, "\n", |before|) == Some(|before| + |digits|)
    decreases |digits|
  {
    var all, end := before + digits + after, |before| + |digits|;
    assert all[end..end + 1] == after[0..1];
    FindIsFirst(all, "\n", |before|, end);
    var found := Find(all, "\n", |before|).value;
    assert all[found] == '\n' by {
      assert all[found..found + 1][0] == all[found];
    }
    forall k | |before| <= k < end
      ensures all[k] != '\n'
    {
      assert all[k] == digits[k - |before|] && digits[k - |before|] in digits;
    }
  }

  /** Two scripts alike up to the end of the first one's marker have their markers at the same place. */
  lemma {:induction false} MarkerStays(script: string, again: string, marker: string, at: nat)
    requires Find(script, marker, 0) == Some(at)
    requires at + |marker| <= |again| && again[..at + |marker|] == script[..at + |marker|]
    ensures Find(again, marker, 0) == Some(at)
  {
    var n := at + |marker|;
    SameOccurrence(script, again, marker, n, at);
    FindIsFirst(again, marker, 0, at);
    var k := Find(again, marker, 0).value;
    SameOccurrence(again, script, marker, n, k);
    FindIsFirst(script, marker, 0, k);
  }

  lemma {:induction false} SameOccurrence(a: string, b: string, text: string, n: nat, at: nat)
    requires n <= |a| && n <= |b| && a[..n] == b[..n] && at + |text| <= n && OccursAt(a, text, at)
    ensures OccursAt(b, text, at)
  {
    assert a[at..at + |text|] == a[..n][at..at + |text|];
    assert b[at..at + |text|] == b[..n][at..at + |text|];
  }

  /** The seed a script starts from, if its line is a number. */
  function SeedOf(script: string): Option<nat> {
    var split := SplitAt(script, MARKER);
    if split.Success? && split.value.seed != [] && forall c | c in split.value.seed :: '0' <= c <= '9'
    then Some(Number(split.value.seed))
    else None
  }

  /** The marker is in no place of the script. */
  ghost predicate Absent(script: string, text: string, i: nat) {
    forall k: nat | i <= k :: !OccursAt(script, text, k)
  }

  lemma {:induction false} NotFound(script: string, text: string, i: nat)
    ensures Find(script, text, i).None? <==> Absent(script, text, i)
  {
    forall k: nat | i <= k && OccursAt(script, text, k)
      ensures Find(script, text, i).Some?
    {
      FindIsFirst(script, text, i, k);
    }
  }

  predicate FirstAt(script: string, text: string, at: nat) {
    OccursAt(script, text, at) && forall k: nat | k < at :: !OccursAt(script, text, k)
  }

  lemma {:induction false} FindsFirst(script: string, text: string)
    requires Find(script, text, 0).Some?
    ensures forall at: nat :: FirstAt(script, text, at) <==> at == Find(script, text, 0).value
  {
    var at := Find(script, text, 0).value;
    forall k: nat | OccursAt(script, text, k)
      ensures at <= k
    {
      FindIsFirst(script, text, 0, k);
    }
  }

  /**
   What is refused, and why: a negative sequence, a script without the marker, and one that ends on the line of the first.
   */
  lemma {:induction false} SeedingFails(script: string, sequence: int)
    ensures WithSequence(script, sequence) == Failure(Negative) <==> sequence < 0
    ensures WithSequence(script, sequence) == Failure(NoAssignment) <==> sequence >= 0 && Absent(script, MARKER, 0)
    ensures WithSequence(script, sequence) == Failure(MalformedAssignment) <==>
              sequence >= 0 && exists at: nat :: FirstAt(script, MARKER, at) && Absent(script, "\n", at + |MARKER|)
  {
    NotFound(script, MARKER, 0);
    if !Absent(script, MARKER, 0) {
      var at := Find(script, MARKER, 0).value;
      NotFound(script, "\n", at + |MARKER|);
      FindsFirst(script, MARKER);
      assert FirstAt(script, MARKER, at);
    } else {
      assert forall at: nat :: FirstAt(script, MARKER, at) ==> OccursAt(script, MARKER, at);
    }
  }

  /**
   Seeding succeeds exactly for a sequence that is not negative and a script with a whole assignment line; it then
   changes that line only, the script starts from that sequence, and seeding again leaves only the later seed.
   */
  lemma {:induction false} SeedingSetsTheSeed(script: string, sequence: int, later: int)
    ensures WithSequence(script, sequence).Success? <==> sequence >= 0 && SplitAt(script, MARKER).Success?
    ensures WithSequence(script, sequence).Success? ==>
              var seeded := WithSequence(script, sequence).value;
              && SeedOf(seeded) == Some(sequence)
              && (var first, again := SplitAt(script, MARKER).value, SplitAt(seeded, MARKER);
                  again.Success? && again.value.before == first.before && again.value.after == first.after)
              && WithSequence(seeded, later) == WithSequence(script, later)
  {
    if WithSequence(script, sequence).Success? {
      assert '\n' !in Decimal(sequence);
      SplitAgain(script, MARKER, Decimal(sequence));
      NumberOfDecimal(sequence);
    }
  }
}
