/** What an edit of the keybind file means: which line binds which action, and what
    is in force afterwards. */
module KeybindEdits {
  import opened Texts
  import opened Lines
  import opened Keybinds

  // ----- trimming around a separator -----

  lemma {:induction false} StartUpTo(x: string, c: char, y: string)
    requires !IsSpace(c)
    ensures TrimStart(x + [c] + y) == TrimStart(x) + [c] + y
  {
    if x != [] && IsSpace(x[0]) {
      assert (x + [c] + y)[1..] == x[1..] + [c] + y;
      StartUpTo(x[1..], c, y);
    }
  }

  lemma {:induction false} EndDownTo(x: string, c: char, y: string)
    requires !IsSpace(c)
    ensures TrimEnd(x + [c] + y) == x + [c] + TrimEnd(y)
  {
    if y != [] && IsSpace(y[|y| - 1]) {
      assert (x + [c] + y)[..|x + [c] + y| - 1] == x + [c] + y[..|y| - 1];
      EndDownTo(x, c, y[..|y| - 1]);
    }
  }

  lemma {:induction false} StartTwice(x: string)
    ensures TrimStart(TrimStart(x)) == TrimStart(x)
  {
    if x != [] && IsSpace(x[0]) { StartTwice(x[1..]); }
  }

  lemma {:induction false} StartOf(z: string, c: char)
    requires IsSpace(c)
    ensures TrimStart(z + [c]) == if TrimStart(z) == [] then [] else TrimStart(z) + [c]
  {
    if z == [] {
      assert z + [c] == [c] && [c][1..] == [];
    } else if IsSpace(z[0]) {
      assert (z + [c])[1..] == z[1..] + [c];
      StartOf(z[1..], c);
    }
  }

  /** White space behind changes nothing for the trimmed text. */
  lemma {:induction false} TrimOfEnd(y: string)
    ensures Trim(TrimEnd(y)) == Trim(y)
  {
    if y != [] && IsSpace(y[|y| - 1]) {
      var z := y[..|y| - 1];
      TrimOfEnd(z);
      assert y == z + [y[|y| - 1]];
      StartOf(z, y[|y| - 1]);
      if TrimStart(z) != [] { assert (TrimStart(z) + [y[|y| - 1]])[..|TrimStart(z)|] == TrimStart(z); }
    }
  }

  // ----- one line -----

  /** The line, cut at its first equals sign, binds the name before to the text
      after; white space around either does not count, and a comment or a line
      without a name binds nothing. */
  predicate Says(line: string, key: string, val: string) {
    exists i: nat :: i < |line| && SaysAt(line, i, key, val)
  }

  predicate SaysAt(line: string, i: nat, key: string, val: string)
    requires i < |line|
  {
    && line[i] == '=' && '=' !in line[..i]
    && Trim(line[..i]) == key && key != "" && key[0] != '#' && Trim(line[i + 1..]) == val
  }

  lemma CutLine(x: string, y: string)
    requires '=' !in x
    ensures ParseLine(x + ['='] + y)
            == if Trim(x) == "" || Trim(x)[0] == '#' then None else Some((Trim(x), Trim(y)))
  {
    var (line, a, b) := (x + ['='] + y, TrimStart(x), TrimEnd(y));
    StartUpTo(x, '=', y);
    EndDownTo(a, '=', y);
    TrimStartCut(x);
    FirstIndex(a, b, '=');
    var t := a + ['='] + b;
    assert t[..|a|] == a && t[|a| + 1..] == b;
    StartTwice(x);
    TrimOfEnd(y);
    TrimEndCut(a);
    if a == [] {
      assert t[0] == '=';
    } else {
      assert t[0] == a[0] && !IsSpace(a[0]);
      EndKeepsFirst(a);
    }
  }

  lemma {:induction false} EndKeepsFirst(a: string)
    requires a != [] && !IsSpace(a[0])
    ensures TrimEnd(a) != [] && TrimEnd(a)[0] == a[0]
  {
    if IsSpace(a[|a| - 1]) { EndKeepsFirst(a[..|a| - 1]); }
  }

  lemma NoneBefore(line: string, i: nat)
    requires i <= |line| && '=' !in line[..i]
    ensures forall j :: 0 <= j < i ==> line[j] != '='
  {
    forall j | 0 <= j < i ensures line[j] != '=' {
      assert line[..i][j] == line[j];
    }
  }

  lemma OneFirst(line: string, i: nat, j: nat)
    requires i < |line| && line[i] == '=' && '=' !in line[..i]
    requires j < |line| && line[j] == '=' && '=' !in line[..j]
    ensures i == j
  {
    NoneBefore(line, i);
    NoneBefore(line, j);
  }

  /** What the parser makes of a line is what the line says. */
  lemma LineExactly(line: string, key: string, val: string)
    ensures ParseLine(line) == Some((key, val)) <==> Says(line, key, val)
  {
    var eq := IndexOf(line, '=');
    if eq.None? {
      TrimCuts(line);
      assert IndexOf(Trim(line), '=').None?;
    } else {
      var i := eq.value;
      assert line == line[..i] + ['='] + line[i + 1..];
      CutLine(line[..i], line[i + 1..]);
      if ParseLine(line) == Some((key, val)) { assert SaysAt(line, i, key, val); }
      if Says(line, key, val) {
        var j: nat :| j < |line| && SaysAt(line, j, key, val);
        OneFirst(line, i, j);
      }
    }
  }

  // ----- the file -----

  ghost predicate Silent(line: string, key: string) {
    forall v :: !Says(line, key, v)
  }

  /** No line from k on binds the name. */
  ghost predicate SilentFrom(lines: seq<string>, k: nat, key: string) {
    forall j :: k <= j < |lines| ==> Silent(lines[j], key)
  }

  /** Line k binds the name, and no later line does. */
  ghost predicate LastWord(lines: seq<string>, k: nat, key: string, val: string) {
    k < |lines| && Says(lines[k], key, val) && SilentFrom(lines, k + 1, key)
  }

  /** The reading of a name: what the last line that binds it says, else what it
      was before. */
  ghost predicate ReadAs(lines: seq<string>, kb: Binds, key: string, after: Binds) {
    || (SilentFrom(lines, 0, key) && (key in after <==> key in kb) && (key in kb ==> after[key] == kb[key]))
    || (key in after && exists k: nat :: LastWord(lines, k, key, after[key]))
  }

  lemma AssignReads(kb: Binds, line: string, key: string)
    requires key != PROTO
    ensures var next := Assign(kb, ParseLine(line));
            if Silent(line, key) then (key in next <==> key in kb) && (key in kb ==> next[key] == kb[key])
            else key in next && Says(line, key, next[key])
  {
    if ParseLine(line).Some? && ParseLine(line).value.0 == key {
      LineExactly(line, key, ParseLine(line).value.1);
    } else if !Silent(line, key) {
      var v :| Says(line, key, v);
      LineExactly(line, key, v);
    }
  }

  lemma {:induction false} LinesRead(lines: seq<string>, kb: Binds, key: string)
    requires key != PROTO
    ensures ReadAs(lines, kb, key, ParseLines(lines, kb))
    decreases lines
  {
    if lines != [] {
      var (first, rest) := (lines[0], lines[1..]);
      AssignReads(kb, first, key);
      LinesRead(rest, Assign(kb, ParseLine(first)), key);
      var after := ParseLines(lines, kb);
      if SilentFrom(rest, 0, key) {
        SilentOnward(lines, 1, key);
        if Silent(first, key) {
          assert SilentFrom(lines, 0, key);
        } else {
          assert LastWord(lines, 0, key, after[key]);
        }
      } else {
        var k: nat :| LastWord(rest, k, key, after[key]);
        SilentOnward(lines, k + 2, key);
        assert LastWord(lines, k + 1, key, after[key]);
      }
    }
  }

  lemma SilentOnward(lines: seq<string>, k: nat, key: string)
    requires lines != [] && k >= 1 && SilentFrom(lines[1..], k - 1, key)
    ensures SilentFrom(lines, k, key)
  {
    forall j | k <= j < |lines| ensures Silent(lines[j], key) {
      assert lines[1..][j - 1] == lines[j];
    }
  }

  /** The reading of a whole file: a name is bound exactly if some line binds it,
      and to what the last such line says. */
  lemma FileReads(raw: string, key: string)
    requires key != PROTO
    ensures var lines := Split(raw, '\n');
            if SilentFrom(lines, 0, key) then key !in Parse(raw)
            else key in Parse(raw) && exists k: nat :: LastWord(lines, k, key, Parse(raw)[key])
  {
    LinesRead(Split(raw, '\n'), map[], key);
  }

  // ----- an edit takes effect -----

  /** What an action is bound to after an edit: by its last line, else by default;
      a party channel has no default. */
  ghost predicate InForce(lines: seq<string>, defaults: Binds, action: string, val: string) {
    if SilentFrom(lines, 0, action)
    then val == if action in PartyNames(1) then "" else Value(defaults, action)
    else exists k: nat :: LastWord(lines, k, action, val)
  }

  lemma ActionIsNoProto(action: string)
    requires action in ACTIONS
    ensures action != PROTO
  {
    var k :| 0 <= k < |ACTIONS| && ACTIONS[k] == action;
    ActionsOk(k);
    assert Word(action[0]);
  }

  /** A notification, exactly: if the text is the one last written, binds nothing or
      binds what is in force, nothing happens; otherwise all sixteen actions and no
      other are bound anew, each as the file's last line for it says, and the file
      is written out to say just that. */
  lemma {:induction false} EditTakesEffect(l: Loop, header: string, defaults: Binds)
    requires Commentary(header) && CleanBinds(defaults)
    ensures var (next, lines) := (Notice(l, header, defaults, true), Split(l.file, '\n'));
            if l.file == l.lastWritten || Parse(l.file) == map[] || Parse(l.file) == l.binds then next == l
            else
              && Full(next.binds) && Parse(next.file) == next.binds && next.lastWritten == next.file
              && forall a :: a in ACTIONS ==> InForce(lines, defaults, a, next.binds[a])
  {
    var next := Notice(l, header, defaults, true);
    if !(l.file == l.lastWritten || Parse(l.file) == map[] || Parse(l.file) == l.binds) {
      ResolvedRoundTrip(header, l.file, defaults);
      BuildExact(Parse(l.file), defaults);
      forall a | a in ACTIONS ensures InForce(Split(l.file, '\n'), defaults, a, next.binds[a]) {
        ActionIsNoProto(a);
        FileReads(l.file, a);
      }
    }
  }
}
