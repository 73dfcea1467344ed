/** The keybind file: writing it, reading it, and the watch loop between. */
module Keybinds {
  import opened Texts
  import opened Lines

  type Binds = map<string, string>

  /** The names a key may not take: assigning it on a plain object is ignored. */
  const PROTO: string := "__proto__"

  function Party(i: nat): string
    requires 1 <= i <= 8
  {
    "party" + [Digit(i)]
  }

  const NAMED: seq<string> := ["toggle", "focus", "clickThrough", "nextChannel", "prevChannel", "settings",
                               "recentParty", "goFo76"]

  function PartyNames(i: nat): seq<string>
    requires 1 <= i
    decreases 9 - i
  {
    if i > 8 then [] else [Party(i)] + PartyNames(i + 1)
  }

  const ACTIONS: seq<string> := NAMED + PartyNames(1)

  // ----- reading -----

  function IndexOf(s: string, c: char): (i: Option<nat>)
    ensures i.Some? ==> i.value < |s| && s[i.value] == c && c !in s[..i.value]
    ensures i.None? ==> c !in s
  {
    if s == [] then None
    else if s[0] == c then Some(0)
    else
      var rest := IndexOf(s[1..], c);
      if rest.None? then None else Some(rest.value + 1)
  }

  function ParseLine(line: string): Option<(string, string)> {
    var t := Trim(line);
    if t == "" || t[0] == '#' || IndexOf(t, '=').None? then None else
    var eq := IndexOf(t, '=').value;
    var key, val := Trim(t[..eq]), Trim(t[eq + 1..]);
    if key == "" then None else Some((key, val))
  }

  function Assign(kb: Binds, e: Option<(string, string)>): Binds {
    if e.None? || e.value.0 == PROTO then kb else kb[e.value.0 := e.value.1]
  }

  function ParseLines(lines: seq<string>, kb: Binds): Binds
    decreases lines
  {
    if lines == [] then kb else ParseLines(lines[1..], Assign(kb, ParseLine(lines[0])))
  }

  function Parse(raw: string): Binds {
    ParseLines(Split(raw, '\n'), map[])
  }

  method ParseKeybindsCfg(raw: string) returns (kb: Binds)
    ensures kb == Parse(raw)
  {
    kb := map[];
    var lines := Split(raw, '\n');
    var k := 0;
    while k < |lines|
      invariant k <= |lines|
      invariant ParseLines(lines[k..], kb) == Parse(raw)
    {
      var next := k + 1;
      ghost var prior := kb;
      var t := Trim(lines[k]);
      if t != "" && t[0] != '#' {
        var eq := IndexOf(t, '=');
        if eq.Some? {
          var key, val := Trim(t[..eq.value]), Trim(t[eq.value + 1..]);
          if key != "" && key != PROTO { kb := kb[key := val]; }
        }
      }
      assert kb == Assign(prior, ParseLine(lines[k]));
      k := next;
    }
  }

  // ----- writing -----

  function Value(kb: Binds, action: string): string {
    if action in kb then kb[action] else ""
  }

  function Entry(kb: Binds, action: string): string {
    action + "=" + Value(kb, action)
  }

  function Entries(kb: Binds, actions: seq<string>): seq<string> {
    if actions == [] then [] else [Entry(kb, actions[0])] + Entries(kb, actions[1..])
  }

  /** header is the comment block the file starts with. */
  function Print(header: string, kb: Binds): string {
    Join([header] + Entries(kb, ACTIONS), '\n') + "\n"
  }

  method WriteKeybindsCfg(header: string, kb: Binds) returns (content: string)
    ensures content == Print(header, kb)
  {
    var lines := [header];
    var k := 0;
    while k < |ACTIONS|
      invariant k <= |ACTIONS|
      invariant lines + Entries(kb, ACTIONS[k..]) == [header] + Entries(kb, ACTIONS)
    {
      assert ACTIONS[k..][1..] == ACTIONS[k + 1..];
      lines := lines + [ACTIONS[k] + "=" + (if ACTIONS[k] in kb then kb[ACTIONS[k]] else "")];
      k := k + 1;
    }
    assert lines == [header] + Entries(kb, ACTIONS);
    content := Join(lines, '\n') + "\n";
  }

  /** Every header line is blank or a comment. */
  predicate Commentary(header: string) {
    forall i :: 0 <= i < |Split(header, '\n')| ==> Comment(Split(header, '\n')[i])
  }

  predicate Comment(line: string) {
    Trim(line) == "" || Trim(line)[0] == '#'
  }

  // ----- round trip -----

  /** A value the file can hold. */
  predicate Clean(v: string) {
    Trimmed(v) && '\n' !in v
  }

  predicate CleanBinds(kb: Binds) {
    forall k :: k in kb ==> Clean(kb[k])
  }

  /** A name the file can hold. */
  predicate NameOk(s: string) {
    s != [] && forall i :: 0 <= i < |s| ==> Word(s[i])
  }

  predicate Word(c: char) {
    'a' <= c <= 'z' || 'A' <= c <= 'Z' || '0' <= c <= '9'
  }

  lemma {:induction false} PartyNamesOk(i: nat, k: nat)
    requires 1 <= i && k < |PartyNames(i)|
    ensures NameOk(PartyNames(i)[k])
    decreases k
  {
    if k > 0 { PartyNamesOk(i + 1, k - 1); }
  }

  lemma ActionsOk(k: nat)
    requires k < |ACTIONS|
    ensures NameOk(ACTIONS[k])
  {
    if k >= |NAMED| { PartyNamesOk(1, k - |NAMED|); }
  }

  lemma {:induction false} FirstIndex(a: string, b: string, c: char)
    requires c !in a
    ensures IndexOf(a + [c] + b, c) == Some(|a|)
  {
    var s := a + [c] + b;
    if a != [] {
      assert s[0] == a[0] && s[1..] == a[1..] + [c] + b;
      FirstIndex(a[1..], b, c);
    }
  }

  lemma EntryParses(name: string, v: string)
    requires NameOk(name) && Clean(v)
    ensures ParseLine(name + "=" + v) == Some((name, v))
  {
    var s := name + "=" + v;
    assert s == name + ['='] + v;
    FirstIndex(name, v, '=');
    assert s[0] == name[0] && Word(name[0]);
    assert s[..|name|] == name && s[|name| + 1..] == v;
    assert Word(name[|name| - 1]);
    TrimKeeps(name);
    TrimKeeps(v);
  }

  lemma {:induction false} CommentsParse(lines: seq<string>, rest: seq<string>, kb: Binds)
    requires forall i :: 0 <= i < |lines| ==> Comment(lines[i])
    ensures ParseLines(lines + rest, kb) == ParseLines(rest, kb)
    decreases lines
  {
    if lines == [] {
      assert lines + rest == rest;
    } else {
      assert (lines + rest)[0] == lines[0] && (lines + rest)[1..] == lines[1..] + rest;
      CommentsParse(lines[1..], rest, kb);
    }
  }

  function Take(kb: Binds, actions: seq<string>, onto: Binds): Binds
    decreases actions
  {
    if actions == [] then onto else Take(kb, actions[1..], onto[actions[0] := Value(kb, actions[0])])
  }

  lemma {:induction false} EntriesParse(kb: Binds, actions: seq<string>, onto: Binds)
    requires forall i :: 0 <= i < |actions| ==> NameOk(actions[i])
    requires forall i :: 0 <= i < |actions| ==> Clean(Value(kb, actions[i]))
    ensures ParseLines(Entries(kb, actions) + [""], onto) == Take(kb, actions, onto)
    decreases actions
  {
    var all := Entries(kb, actions) + [""];
    if actions == [] {
      assert all == [""] && all[1..] == [];
      assert ParseLine("").None?;
    } else {
      EntryParses(actions[0], Value(kb, actions[0]));
      assert Word(actions[0][0]) && actions[0] != PROTO;
      assert all[0] == Entry(kb, actions[0]) && all[1..] == Entries(kb, actions[1..]) + [""];
      EntriesParse(kb, actions[1..], onto[actions[0] := Value(kb, actions[0])]);
    }
  }

  lemma {:induction false} EntriesFree(kb: Binds, actions: seq<string>)
    requires forall i :: 0 <= i < |actions| ==> NameOk(actions[i])
    requires forall i :: 0 <= i < |actions| ==> Clean(Value(kb, actions[i]))
    ensures FreeOf(Entries(kb, actions), '\n')
    decreases actions
  {
    if actions != [] {
      EntriesFree(kb, actions[1..]);
      assert '\n' !in Entry(kb, actions[0]);
    }
  }

  lemma PrintSplits(header: string, kb: Binds)
    requires forall i :: 0 <= i < |ACTIONS| ==> Clean(Value(kb, ACTIONS[i]))
    ensures Split(Print(header, kb), '\n') == Split(header, '\n') + (Entries(kb, ACTIONS) + [""])
  {
    forall i | 0 <= i < |ACTIONS| ensures NameOk(ACTIONS[i]) { ActionsOk(i); }
    var entries := Entries(kb, ACTIONS);
    EntriesFree(kb, ACTIONS);
    var body := Join(entries, '\n');
    assert [header] + entries != [] && ([header] + entries)[1..] == entries;
    assert Print(header, kb) == header + ['\n'] + (body + ['\n'] + "");
    SplitConcat(header, body + ['\n'] + "", '\n');
    SplitConcat(body, "", '\n');
    SplitJoin(entries, '\n');
  }

  lemma {:induction false} TakeExact(kb: Binds, actions: seq<string>, onto: Binds)
    ensures var t := Take(kb, actions, onto);
            && (forall k :: k in t <==> k in onto || k in actions)
            && (forall k :: k in t ==> t[k] == if k in actions then Value(kb, k) else onto[k])
    decreases actions
  {
    if actions != [] { TakeExact(kb, actions[1..], onto[actions[0] := Value(kb, actions[0])]); }
  }

  /** A full map of actions. */
  ghost predicate Full(kb: Binds) {
    forall k :: k in kb <==> k in ACTIONS
  }

  lemma CleanRoundTrip(header: string, kb: Binds)
    requires Commentary(header) && Full(kb) && CleanBinds(kb)
    ensures Parse(Print(header, kb)) == kb
  {
    forall i | 0 <= i < |ACTIONS| ensures NameOk(ACTIONS[i]) && Clean(Value(kb, ACTIONS[i])) {
      ActionsOk(i);
      assert ACTIONS[i] in ACTIONS;
    }
    PrintSplits(header, kb);
    CommentsParse(Split(header, '\n'), Entries(kb, ACTIONS) + [""], map[]);
    EntriesParse(kb, ACTIONS, map[]);
    TakeExact(kb, ACTIONS, map[]);
  }

  // ----- what parsing yields -----

  lemma LineClean(line: string)
    requires '\n' !in line
    ensures ParseLine(line).Some? ==> Clean(ParseLine(line).value.1)
  {
    var t := Trim(line);
    TrimCuts(line);
    if ParseLine(line).Some? {
      TrimCuts(t[IndexOf(t, '=').value + 1..]);
    }
  }

  lemma {:induction false} LinesClean(lines: seq<string>, kb: Binds)
    requires FreeOf(lines, '\n') && CleanBinds(kb)
    ensures CleanBinds(ParseLines(lines, kb))
    decreases lines
  {
    if lines != [] {
      LineClean(lines[0]);
      LinesClean(lines[1..], Assign(kb, ParseLine(lines[0])));
    }
  }

  /** Whatever the file holds, every value read from it is clean. */
  lemma ParseClean(raw: string)
    ensures CleanBinds(Parse(raw))
  {
    SplitFrees(raw, '\n');
    LinesClean(Split(raw, '\n'), map[]);
  }

  /** Writing a full map and reading it back gives the map exactly when every
      value is free of outer white space and line breaks. */
  lemma RoundTripExactly(header: string, kb: Binds)
    requires Commentary(header) && Full(kb)
    ensures Parse(Print(header, kb)) == kb <==> CleanBinds(kb)
  {
    if CleanBinds(kb) { CleanRoundTrip(header, kb); }
    ParseClean(Print(header, kb));
  }

  // ----- the resolved map and the watch loop -----

  function BuildParties(kb: Binds, m: Binds, i: nat): Binds
    requires 1 <= i
    decreases 9 - i
  {
    if i > 8 then m else BuildParties(kb, m[Party(i) := Value(kb, Party(i))], i + 1)
  }

  function BuildNamed(kb: Binds, defaults: Binds): Binds {
    map a | a in NAMED :: if a in kb then kb[a] else Value(defaults, a)
  }

  function Build(kb: Binds, defaults: Binds): Binds {
    BuildParties(kb, BuildNamed(kb, defaults), 1)
  }

  method BuildKeybindMap(kb: Binds, defaults: Binds) returns (m: Binds)
    ensures m == Build(kb, defaults)
  {
    m := BuildNamed(kb, defaults);
    for i := 1 to 9
      invariant BuildParties(kb, m, i) == Build(kb, defaults)
    {
      m := m[Party(i) := if Party(i) in kb then kb[Party(i)] else ""];
    }
  }

  lemma {:induction false} PartiesExact(kb: Binds, m: Binds, i: nat)
    requires 1 <= i
    ensures var b := BuildParties(kb, m, i);
            && (forall k :: k in b <==> k in m || k in PartyNames(i))
            && (forall k :: k in b ==> b[k] == if k in PartyNames(i) then Value(kb, k) else m[k])
    decreases 9 - i
  {
    if i <= 8 { PartiesExact(kb, m[Party(i) := Value(kb, Party(i))], i + 1); }
  }

  /** The resolved map has the sixteen actions and no other, each from the file
      if it is there and from the defaults if not; a party channel has none. */
  lemma {:induction false} BuildExact(kb: Binds, defaults: Binds)
    ensures Full(Build(kb, defaults))
    ensures forall a :: a in ACTIONS ==>
              Build(kb, defaults)[a] == if a in kb then kb[a] else if a in PartyNames(1) then "" else Value(defaults, a)
  {
    PartiesExact(kb, BuildNamed(kb, defaults), 1);
  }

  /** What the loop holds: the file's text, what was last written, and the map in
      force. */
  datatype Loop = Loop(file: string, lastWritten: string, binds: Binds)

  /** Registering a map puts it in force and writes it to the file. */
  function Register(header: string, defaults: Binds, kb: Binds): Loop {
    var m := Build(kb, defaults);
    Loop(Print(header, m), Print(header, m), m)
  }

  /** One notification, past the time guards. guarded says whether the comparison
      with the last written text is in place. */
  function Notice(l: Loop, header: string, defaults: Binds, guarded: bool): Loop {
    var kb := Parse(l.file);
    if (guarded && l.file == l.lastWritten) || kb == map[] || kb == l.binds then l
    else Register(header, defaults, kb)
  }

  lemma BuildClean(kb: Binds, defaults: Binds)
    requires CleanBinds(kb) && CleanBinds(defaults)
    ensures CleanBinds(Build(kb, defaults)) && Full(Build(kb, defaults))
  {
    BuildExact(kb, defaults);
  }

  /** Round trip: for any file text, what is resolved from it and written comes
      back, on all sixteen actions and on no other key. */
  lemma ResolvedRoundTrip(header: string, raw: string, defaults: Binds)
    requires Commentary(header) && CleanBinds(defaults)
    ensures var m := Build(Parse(raw), defaults);
            Parse(Print(header, m)) == m && forall k :: k in m <==> k in ACTIONS
  {
    ParseClean(raw);
    BuildClean(Parse(raw), defaults);
    CleanRoundTrip(header, Build(Parse(raw), defaults));
  }

  /** The write, watch, write loop stands still after one notification, from any
      file text and any map in force, even without the last-written guard. */
  lemma {:induction false} LoopSettles(l: Loop, header: string, defaults: Binds, guarded: bool, again: bool)
    requires Commentary(header) && CleanBinds(defaults)
    ensures var next := Notice(l, header, defaults, guarded);
            Notice(next, header, defaults, guarded || again) == next
  {
    var next := Notice(l, header, defaults, guarded);
    if next != l {
      ResolvedRoundTrip(header, l.file, defaults);
    }
  }

  class KeybindFile {
    const header: string
    const defaults: Binds
    var file: string
    var lastWritten: string
    var binds: Binds

    ghost function View(): Loop
      reads this
    {
      Loop(file, lastWritten, binds)
    }

    method RegisterHotkeys(kb: Binds)
      modifies this
      ensures View() == Register(header, defaults, kb)
    {
      var m := BuildKeybindMap(kb, defaults);
      binds := m;
      var content := WriteKeybindsCfg(header, m);
      lastWritten, file := content, content;
    }

    method OnNotification()
      modifies this
      ensures View() == Notice(old(View()), header, defaults, true)
    {
      if file == lastWritten { return; }
      var kb := ParseKeybindsCfg(file);
      if kb == map[] || kb == binds { return; }
      RegisterHotkeys(kb);
    }
  }
}
