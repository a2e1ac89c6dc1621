/** The completion proof a mill program leaves behind: `completed_status` of app/mill_supervisor_agent.py. */
module MillStatus {
  import opened Outcomes

  /** Modification time and size of the status file. */
  datatype Signature = Signature(modified: int, size: int)

  /** What is found at the status path: no file, a file that cannot be read, or its lines. */
  datatype StatusFile = Absent | Unreadable(signature: Signature) | Lines(signature: Signature, lines: seq<string>)

  datatype Verdict = Completed | NotAvailable | NotChanged | NotReadable | WrongFormat | OtherProgram | NotNormal

  const FORMAT := "MPS-MILL-STATUS-V1"

  // ---------- text ----------

  predicate IsSpace(c: char) {
    9 <= c as int <= 13 || 28 <= c as int <= 32
  }

  function StripLeft(s: string): string {
    if s != [] && IsSpace(s[0]) then StripLeft(s[1..]) else s
  }

  function StripRight(s: string): string {
    if s != [] && IsSpace(s[|s| - 1]) then StripRight(s[..|s| - 1]) else s
  }

  function Strip(s: string): string {
    StripRight(StripLeft(s))
  }

  function Upper(s: string): string {
    seq(|s|, i requires 0 <= i < |s| => if 'a' <= s[i] <= 'z' then s[i] - 'a' + 'A' else s[i])
  }

  /** The text after the last slash. */
  function BaseName(path: string): string {
    if '/' !in path then path else
      var n := |path| - 1;
      if path[n] == '/' then [] else BaseName(path[..n]) + [path[n]]
  }

  /** A line with a colon: the key before it and the value after it. */
  datatype Entry = Entry(key: string, value: string)

  function ColonAt(line: string, i: nat): (at: nat)
    requires i <= |line|
    ensures i <= at <= |line|
    decreases |line| - i
  {
    if i == |line| || line[i] == ':' then i else ColonAt(line, i + 1)
  }

  function EntryOf(line: string): Option<Entry> {
    var at := ColonAt(line, 0);
    if at == |line| then None else Some(Entry(Upper(Strip(line[..at])), Strip(line[at + 1..])))
  }

  // ---------- reading the file ----------

  predicate HasKey(line: string, key: string) {
    EntryOf(line).Some? && EntryOf(line).value.key == key
  }

  /** The value given last for a key. */
  function LastValue(lines: seq<string>, key: string): Option<string> {
    if lines == [] then None else
      var n := |lines| - 1;
      if HasKey(lines[n], key) then Some(EntryOf(lines[n]).value.value) else LastValue(lines[..n], key)
  }

  function StatesIn(lines: seq<string>): seq<string> {
    if lines == [] then [] else
      var n := |lines| - 1;
      StatesIn(lines[..n]) + (if HasKey(lines[n], "STATE") then [Upper(EntryOf(lines[n]).value.value)] else [])
  }

  function Judge(file: StatusFile, program: string, previous: Option<Signature>): Verdict {
    if file.Absent? then NotAvailable
    else if previous == Some(file.signature) then NotChanged
    else if file.Unreadable? then NotReadable
    else if LastValue(file.lines, "VERSION") != Some(FORMAT) then WrongFormat
    else if LastValue(file.lines, "PROGRAM") != Some(BaseName(program)) then OtherProgram
    else
      var states := StatesIn(file.lines);
      if states == [] || states[0] != "STARTED" || states[|states| - 1] != "COMPLETED" then NotNormal else Completed
  }

  /** The fields gathered so far. */
  ghost predicate Gathered(fields: map<string, string>, lines: seq<string>) {
    forall key | key != "STATE" :: LastValue(lines, key) == if key in fields then Some(fields[key]) else None
  }

  lemma {:induction false} GatherOne(fields: map<string, string>, lines: seq<string>, line: string)
    requires Gathered(fields, lines)
    ensures EntryOf(line).None? ==> Gathered(fields, lines + [line]) && StatesIn(lines + [line]) == StatesIn(lines)
    ensures HasKey(line, "STATE") ==>
              && Gathered(fields, lines + [line])
              && StatesIn(lines + [line]) == StatesIn(lines) + [Upper(EntryOf(line).value.value)]
    ensures EntryOf(line).Some? && !HasKey(line, "STATE") ==>
              && Gathered(fields[EntryOf(line).value.key := EntryOf(line).value.value], lines + [line])
              && StatesIn(lines + [line]) == StatesIn(lines)
  {
    hide EntryOf;
    var more := lines + [line];
    assert more[..|more| - 1] == lines && more[|more| - 1] == line;
  }

  method CompletedStatus(file: StatusFile, program: string, previousSignature: Option<Signature>) returns (verdict: Verdict)
    ensures verdict == Judge(file, program, previousSignature)
  {
    hide EntryOf, BaseName;
    if file.Absent? {
      return NotAvailable;
    }
    if previousSignature.Some? && file.signature == previousSignature.value {
      return NotChanged;
    }
    if file.Unreadable? {
      return NotReadable;
    }
    var fields: map<string, string>, states: seq<string> := map[], [];
    for i := 0 to |file.lines|
      invariant Gathered(fields, file.lines[..i])
      invariant states == StatesIn(file.lines[..i])
    {
      var line := file.lines[i];
      var entry := EntryOf(line);
      GatherOne(fields, file.lines[..i], line);
      assert file.lines[..i + 1] == file.lines[..i] + [line];
      if entry.None? {
        continue;
      }
      if entry.value.key == "STATE" {
        states := states + [Upper(entry.value.value)];
      } else {
        fields := fields[entry.value.key := entry.value.value];
      }
    }
    assert file.lines[..|file.lines|] == file.lines;
    if "VERSION" !in fields || fields["VERSION"] != FORMAT {
      return WrongFormat;
    }
    if "PROGRAM" !in fields || fields["PROGRAM"] != BaseName(program) {
      return OtherProgram;
    }
    if |states| == 0 || states[0] != "STARTED" || states[|states| - 1] != "COMPLETED" {
      return NotNormal;
    }
    return Completed;
  }

  // ---------- what completed means ----------

  /** Line `i` is the last one with this key, and has this value. */
  predicate LastIs(lines: seq<string>, key: string, value: string, i: nat) {
    && i < |lines| && HasKey(lines[i], key) && EntryOf(lines[i]).value.value == value
    && forall j | i < j < |lines| :: !HasKey(lines[j], key)
  }

  predicate FirstIs(lines: seq<string>, key: string, i: nat) {
    && i < |lines| && HasKey(lines[i], key)
    && forall j | 0 <= j < i :: !HasKey(lines[j], key)
  }

  lemma {:induction false} LastValueAt(lines: seq<string>, key: string, value: string)
    ensures LastValue(lines, key) == Some(value) <==> exists i :: LastIs(lines, key, value, i)
    decreases |lines|
  {
    hide EntryOf;
    if lines != [] {
      var n := |lines| - 1;
      LastValueAt(lines[..n], key, value);
      if HasKey(lines[n], key) {
        assert LastIs(lines, key, EntryOf(lines[n]).value.value, n);
      } else {
        if i :| LastIs(lines[..n], key, value, i) {
          assert LastIs(lines, key, value, i);
        }
        if i :| LastIs(lines, key, value, i) {
          assert LastIs(lines[..n], key, value, i);
        }
      }
    }
  }

  function StateAt(lines: seq<string>, i: nat): string
    requires i < |lines| && HasKey(lines[i], "STATE")
  {
    Upper(EntryOf(lines[i]).value.value)
  }

  /** The state lines' values: none exactly when there is no such line, and first and last where they should be. */
  lemma {:induction false} StatesAt(lines: seq<string>)
    ensures StatesIn(lines) == [] <==> forall i | 0 <= i < |lines| :: !HasKey(lines[i], "STATE")
    ensures forall i: nat :: FirstIs(lines, "STATE", i) ==> StatesIn(lines) != [] && StatesIn(lines)[0] == StateAt(lines, i)
    ensures StatesIn(lines) != [] ==> exists i :: FirstIs(lines, "STATE", i)
    decreases |lines|
  {
    hide EntryOf, Upper;
    if lines != [] {
      var n := |lines| - 1;
      var fewer := lines[..n];
      StatesAt(fewer);
      forall i: nat | FirstIs(lines, "STATE", i)
        ensures StatesIn(lines) != [] && StatesIn(lines)[0] == StateAt(lines, i)
      {
        assert i < n ==> FirstIs(fewer, "STATE", i);
      }
      if StatesIn(fewer) != [] {
        var i: nat :| FirstIs(fewer, "STATE", i);
        assert FirstIs(lines, "STATE", i);
      } else if HasKey(lines[n], "STATE") {
        assert FirstIs(lines, "STATE", n);
      }
      assert StatesIn(lines) == [] ==> !HasKey(lines[n], "STATE") && StatesIn(fewer) == [];
      forall i | 0 <= i < |lines| && StatesIn(lines) == []
        ensures !HasKey(lines[i], "STATE")
      {
        assert i < n ==> lines[i] == fewer[i];
      }
    }
  }

  lemma {:induction false} LastStateAt(lines: seq<string>)
    ensures StatesIn(lines) != [] ==>
              && LastValue(lines, "STATE").Some?
              && StatesIn(lines)[|StatesIn(lines)| - 1] == Upper(LastValue(lines, "STATE").value)
    ensures LastValue(lines, "STATE").Some? ==> StatesIn(lines) != []
    decreases |lines|
  {
    hide EntryOf, Upper;
    if lines != [] {
      LastStateAt(lines[..|lines| - 1]);
    }
  }

  /** The file's proof: its last format line, its last program line, and its first and last state lines say so. */
  ghost predicate ProvesCompletion(lines: seq<string>, program: string) {
    && (exists i :: LastIs(lines, "VERSION", FORMAT, i))
    && (exists i :: LastIs(lines, "PROGRAM", BaseName(program), i))
    && (exists i :: FirstIs(lines, "STATE", i) && StateAt(lines, i) == "STARTED")
    && (exists value, i :: LastIs(lines, "STATE", value, i) && Upper(value) == "COMPLETED")
  }

  /** Completion is reported exactly for a changed, readable file that proves it. */
  lemma {:induction false} CompletedMeans(file: StatusFile, program: string, previous: Option<Signature>)
    ensures Judge(file, program, previous) == Completed
       <==> file.Lines? && previous != Some(file.signature) && ProvesCompletion(file.lines, program)
  {
    hide EntryOf, Upper, BaseName, LastValue, StatesIn;
    if file.Lines? {
      var lines := file.lines;
      LastValueAt(lines, "VERSION", FORMAT);
      LastValueAt(lines, "PROGRAM", BaseName(program));
      StatesAt(lines);
      LastStateAt(lines);
      if LastValue(lines, "STATE").Some? {
        LastValueAt(lines, "STATE", LastValue(lines, "STATE").value);
      }
      forall value | exists i :: LastIs(lines, "STATE", value, i)
        ensures LastValue(lines, "STATE") == Some(value)
      {
        LastValueAt(lines, "STATE", value);
      }
    }
  }

  // ---------- what a line and a path say ----------

  predicate Blank(s: string) {
    forall i | 0 <= i < |s| :: IsSpace(s[i])
  }

  /** Text with no blanks at its ends. */
  predicate Trimmed(s: string) {
    s != [] ==> !IsSpace(s[0]) && !IsSpace(s[|s| - 1])
  }

  lemma {:induction false} LeftIsStripped(pad: string, s: string)
    requires Blank(pad) && (s != [] ==> !IsSpace(s[0]))
    ensures StripLeft(pad + s) == s
  {
    if pad == [] {
      assert pad + s == s;
    } else {
      assert (pad + s)[1..] == pad[1..] + s && (pad + s)[0] == pad[0];
      LeftIsStripped(pad[1..], s);
    }
  }

  lemma {:induction false} RightIsStripped(s: string, pad: string)
    requires Blank(pad) && (s != [] ==> !IsSpace(s[|s| - 1]))
    ensures StripRight(s + pad) == s
  {
    if pad == [] {
      assert s + pad == s;
    } else {
      var n := |pad| - 1;
      assert (s + pad)[..|s + pad| - 1] == s + pad[..n] && (s + pad)[|s + pad| - 1] == pad[n];
      RightIsStripped(s, pad[..n]);
    }
  }

  lemma {:induction false} BlankIsStripped(s: string)
    requires Blank(s)
    ensures StripLeft(s) == []
  {
    assert s + [] == s;
    LeftIsStripped(s, []);
  }

  /** Stripping takes off exactly the blanks at both ends. */
  lemma {:induction false} StripTrims(before: string, s: string, after: string)
    requires Blank(before) && Trimmed(s) && Blank(after)
    ensures Strip(before + s + after) == s
  {
    hide IsSpace;
    if s == [] {
      assert before + s + after == before + after;
      BlankIsStripped(before + after);
    } else {
      assert before + s + after == before + (s + after) && (s + after)[0] == s[0];
      LeftIsStripped(before, s + after);
      RightIsStripped(s, after);
    }
  }

  /** A key, a colon and a value, each with any blanks around them, are read as just that, the key in upper case. */
  lemma {:induction false} EntryIsRead(a: string, key: string, b: string, c: string, value: string, d: string)
    requires Blank(a) && Blank(b) && Blank(c) && Blank(d) && Trimmed(key) && Trimmed(value) && ':' !in key
    ensures EntryOf(a + key + b + ":" + (c + value + d)) == Some(Entry(Upper(key), value))
  {
    var line, at := a + key + b + ":" + (c + value + d), |a + key + b|;
    forall i | 0 <= i < at
      ensures line[i] != ':'
    {
      assert line[i] == (a + key + b)[i];
      if |a| <= i < |a| + |key| {
        assert line[i] == key[i - |a|] && key[i - |a|] in key;
      } else {
        assert IsSpace(line[i]);
      }
    }
    FirstColon(line, 0, at);
    assert line[..at] == a + key + b && line[at + 1..] == c + value + d;
    StripTrims(a, key, b);
    StripTrims(c, value, d);
    hide Strip, Upper, IsSpace;
  }

  lemma {:induction false} FirstColon(line: string, i: nat, at: nat)
    requires i <= at < |line| && line[at] == ':' && forall k | i <= k < at :: line[k] != ':'
    ensures ColonAt(line, i) == at
    decreases at - i
  {
    if i < at {
      FirstColon(line, i + 1, at);
    }
  }

  /** A line says something exactly when it has a colon. */
  lemma {:induction false} EntryNeedsColon(line: string, i: nat)
    requires i <= |line|
    ensures ColonAt(line, i) == |line| <==> ':' !in line[i..]
    ensures i == 0 ==> (EntryOf(line).None? <==> ':' !in line)
    decreases |line| - i
  {
    hide Strip, Upper;
    if i < |line| {
      EntryNeedsColon(line, i + 1);
      assert line[i..] == [line[i]] + line[i + 1..];
    }
    assert line[0..] == line;
  }

  /** The name is the path, or what follows its last slash. */
  lemma {:induction false} BaseNameMeans(folder: string, name: string)
    requires '/' !in name
    ensures BaseName(name) == name && BaseName(folder + "/" + name) == name
  {
    var path := folder + "/" + name;
    assert path[|folder|] == '/';
    if name == [] {
      assert path[|path| - 1] == '/';
    } else {
      var n := |name| - 1;
      assert path[..|path| - 1] == folder + "/" + name[..n] && path[|path| - 1] == name[n] && name[n] in name;
      assert forall c | c in name[..n] :: c in name;
      BaseNameMeans(folder, name[..n]);
      assert (folder + "/" + name[..n])[|folder|] == '/';
      assert name[..n] + [name[n]] == name;
    }
  }

  function Line(key: string, pad: string, value: string): string {
    key + ":" + (pad + value + "\n")
  }

  lemma {:induction false} LineIsRead(key: string, pad: string, value: string)
    requires Trimmed(key) && ':' !in key && Blank(pad) && Trimmed(value)
    ensures EntryOf(Line(key, pad, value)) == Some(Entry(Upper(key), value))
  {
    EntryIsRead([], key, [], pad, value, "\n");
    hide EntryOf, Upper;
    assert [] + key + [] + ":" == key + ":";
  }

  /** What a program that ends normally writes for itself. */
  function Written(name: string): seq<string> {
    [Line("VERSION", "", FORMAT), Line("program", " ", name), Line("STATE", "", "STARTED"), Line("State", " ", "Completed")]
  }

  lemma {:induction false} WrittenEntries(name: string)
    requires Trimmed(name)
    ensures var lines := Written(name);
            && EntryOf(lines[0]) == Some(Entry("VERSION", FORMAT)) && EntryOf(lines[1]) == Some(Entry("PROGRAM", name))
            && EntryOf(lines[2]) == Some(Entry("STATE", "STARTED")) && EntryOf(lines[3]) == Some(Entry("STATE", "Completed"))
  {
    hide EntryOf, Upper, Line, Trimmed, Blank;
    TextsAreTrimmed();
    UpperCase();
    LineIsRead("VERSION", "", FORMAT);
    LineIsRead("program", " ", name);
    LineIsRead("STATE", "", "STARTED");
    LineIsRead("State", " ", "Completed");
  }

  lemma {:induction false} TextsAreTrimmed()
    ensures Trimmed("VERSION") && Trimmed("program") && Trimmed("STATE") && Trimmed("State")
    ensures ':' !in "VERSION" && ':' !in "program" && ':' !in "STATE" && ':' !in "State"
    ensures Trimmed(FORMAT) && Trimmed("STARTED") && Trimmed("Completed") && Blank("") && Blank(" ")
  {
  }

  /** A file that says so proves the completion of any program of that name, unless it is the file of before. */
  lemma {:induction false} WrittenProves(folder: string, name: string, now: Signature, previous: Option<Signature>)
    requires '/' !in name && Trimmed(name)
    ensures Judge(Lines(now, Written(name)), folder + "/" + name, previous) == if previous == Some(now) then NotChanged else Completed
  {
    hide EntryOf, BaseName, Trimmed, Line, Upper, LastValue, StatesIn;
    BaseNameMeans(folder, name);
    WrittenEntries(name);
    UpperCase();
    LastOfFour(Written(name));
    hide Written;
  }

  lemma {:induction false} UpperCase()
    ensures Upper("VERSION") == "VERSION" && Upper("program") == "PROGRAM" && Upper("STATE") == "STATE" && Upper("State") == "STATE"
    ensures Upper("STARTED") == "STARTED" && Upper("Completed") == "COMPLETED"
  {
  }

  lemma {:induction false} LastOfFour(lines: seq<string>)
    requires |lines| == 4
    requires HasKey(lines[0], "VERSION") && HasKey(lines[1], "PROGRAM") && HasKey(lines[2], "STATE") && HasKey(lines[3], "STATE")
    ensures LastValue(lines, "VERSION") == Some(EntryOf(lines[0]).value.value)
    ensures LastValue(lines, "PROGRAM") == Some(EntryOf(lines[1]).value.value)
    ensures StatesIn(lines) == [Upper(EntryOf(lines[2]).value.value), Upper(EntryOf(lines[3]).value.value)]
  {
    hide EntryOf, Upper;
    LastValueAt(lines, "VERSION", EntryOf(lines[0]).value.value);
    assert LastIs(lines, "VERSION", EntryOf(lines[0]).value.value, 0);
    LastValueAt(lines, "PROGRAM", EntryOf(lines[1]).value.value);
    assert LastIs(lines, "PROGRAM", EntryOf(lines[1]).value.value, 1);
    var three, two, one := lines[..3], lines[..3][..2], lines[..3][..2][..1];
    assert three[2] == lines[2] && two[1] == lines[1] && one[0] == lines[0];
    assert StatesIn(one[..0]) == [] && StatesIn(one) == [] && StatesIn(two) == [];
    assert StatesIn(three) == [Upper(EntryOf(lines[2]).value.value)];
  }
}
