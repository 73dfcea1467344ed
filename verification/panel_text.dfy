/** The text in which the desktop shell reports the panels' modes. */
module PanelText {
  import opened Texts
  import opened Lines
  import opened PanelModes

  type Modes = map<string, Mode>

  /** The name of a mode the code knows. */
  function ModeOf(s: string): Option<Mode> {
    if s == "none" then Some(Windowed)
    else if s == "autohide" then Some(Autohide)
    else if s == "dodgewindows" then Some(DodgeWindows)
    else if s == "windowsgobelow" then Some(WindowsGoBelow)
    else None
  }

  /** The shell's own word for a mode. */
  function NameOf(m: Mode): string {
    match m
    case Windowed => "none"
    case Autohide => "autohide"
    case DodgeWindows => "dodgewindows"
    case WindowsGoBelow => "windowsgobelow"
    case Unlisted(name) => name
  }

  /** A known mode is read from its own word and from no other. */
  lemma ModesByName(s: string, m: Mode)
    ensures ModeOf(s) == Some(m) ==> Listed(m) && s == NameOf(m)
    ensures Listed(m) ==> ModeOf(NameOf(m)) == Some(m)
  {
    assert NameOf(Windowed)[0] == 'n' && NameOf(Autohide)[0] == 'a';
    assert NameOf(DodgeWindows)[0] == 'd' && NameOf(WindowsGoBelow)[0] == 'w';
  }

  predicate IsDigit(c: char) { '0' <= c <= '9' }

  function LeadingDigits(s: string): (n: nat)
    ensures n <= |s| && forall i :: 0 <= i < n ==> IsDigit(s[i])
    ensures n < |s| ==> !IsDigit(s[n])
  {
    if s == [] || !IsDigit(s[0]) then 0 else 1 + LeadingDigits(s[1..])
  }

  predicate NoSpace(s: string) {
    forall i :: 0 <= i < |s| ==> !IsSpace(s[i])
  }

  /** One piece: digits, an equals sign, and text without white space. */
  function PairOf(piece: string): Option<(string, string)> {
    var t := Trim(piece);
    var n := LeadingDigits(t);
    if n == 0 || n == |t| || t[n] != '=' || n + 1 == |t| || !NoSpace(t[n + 1..]) then None
    else Some((t[..n], t[n + 1..]))
  }

  function Keep(modes: Modes, piece: string): Modes {
    var p := PairOf(piece);
    if p.Some? && ModeOf(p.value.1).Some? then modes[p.value.0 := ModeOf(p.value.1).value] else modes
  }

  function KeepAll(modes: Modes, pieces: seq<string>): Modes
    decreases pieces
  {
    if pieces == [] then modes else KeepAll(Keep(modes, pieces[0]), pieces[1..])
  }

  function ParseSave(output: string): Modes {
    KeepAll(map[], Split(Trim(output), ','))
  }

  method ParsePanelHidingSave(output: string) returns (modes: Modes)
    ensures modes == ParseSave(output)
  {
    modes := map[];
    var pieces := Split(Trim(output), ',');
    var k := 0;
    while k < |pieces|
      invariant k <= |pieces|
      invariant KeepAll(modes, pieces[k..]) == ParseSave(output)
    {
      var pair := PairOf(pieces[k]);
      if pair.Some? {
        var mode := ModeOf(pair.value.1);
        if mode.Some? { modes := modes[pair.value.0 := mode.value]; }
      }
      k := k + 1;
    }
  }

  // ----- what the shell's script prints -----

  datatype Panel = Panel(id: nat, hiding: string)

  function Report(p: Panel): string {
    Decimal(p.id) + "=" + p.hiding
  }

  function Reports(ps: seq<Panel>): seq<string> {
    if ps == [] then [] else [Report(ps[0])] + Reports(ps[1..])
  }

  function PrintSave(ps: seq<Panel>): string {
    if ps == [] then "" else Join(Reports(ps), ',')
  }

  /** A mode's name is a word. */
  predicate PlainMode(s: string) {
    s != [] && NoSpace(s) && ',' !in s
  }

  /** The map the report stands for: the modes the code knows, by panel. */
  function KnownOf(ps: seq<Panel>, onto: Modes): Modes
    decreases ps
  {
    if ps == [] then onto else KnownOf(ps[1..], Noted(onto, ps[0]))
  }

  function Noted(modes: Modes, p: Panel): Modes {
    if ModeOf(p.hiding).Some? then modes[Decimal(p.id) := ModeOf(p.hiding).value] else modes
  }

  lemma {:induction false} CountDigits(digits: string, rest: string)
    requires forall i :: 0 <= i < |digits| ==> IsDigit(digits[i])
    requires rest != [] && !IsDigit(rest[0])
    ensures LeadingDigits(digits + rest) == |digits|
  {
    if digits == [] {
      assert digits + rest == rest;
    } else {
      assert (digits + rest)[0] == digits[0] && (digits + rest)[1..] == digits[1..] + rest;
      CountDigits(digits[1..], rest);
    }
  }

  /** A piece of any text at all names a panel's mode exactly if, trimmed, it is a
      number, an equals sign and a word. */
  lemma PairExactly(piece: string, number: string, word: string)
    ensures PairOf(piece) == Some((number, word))
            <==> && Trim(piece) == number + "=" + word && word != "" && NoSpace(word)
                 && number != "" && forall i :: 0 <= i < |number| ==> IsDigit(number[i])
  {
    var t := Trim(piece);
    if PairOf(piece) == Some((number, word)) {
      assert t == t[..|number|] + "=" + t[|number| + 1..];
    }
    if t == number + "=" + word && forall i :: 0 <= i < |number| ==> IsDigit(number[i]) {
      assert t == number + ("=" + word);
      CountDigits(number, "=" + word);
      assert t[..|number|] == number && t[|number| + 1..] == word;
    }
  }

  lemma ReportParses(p: Panel)
    requires PlainMode(p.hiding)
    ensures PairOf(Report(p)) == Some((Decimal(p.id), p.hiding)) && ',' !in Report(p) && Trimmed(Report(p))
  {
    var digits, s := Decimal(p.id), Report(p);
    DecimalDigits(p.id);
    forall i | 0 <= i < |digits| ensures IsDigit(digits[i]) { assert digits[i] in digits; }
    assert s == digits + ("=" + p.hiding);
    CountDigits(digits, "=" + p.hiding);
    assert s[0] == digits[0] && s[|s| - 1] == p.hiding[|p.hiding| - 1];
    TrimKeeps(s);
    assert s[..|digits|] == digits && s[|digits| + 1..] == p.hiding;
  }

  lemma {:induction false} ReportsKept(ps: seq<Panel>, onto: Modes)
    requires forall i :: 0 <= i < |ps| ==> PlainMode(ps[i].hiding)
    ensures KeepAll(onto, Reports(ps)) == KnownOf(ps, onto)
    ensures FreeOf(Reports(ps), ',')
    decreases ps
  {
    if ps != [] {
      ReportParses(ps[0]);
      ReportsKept(ps[1..], Keep(onto, Report(ps[0])));
    }
  }

  lemma {:induction false} JoinedIsTrimmed(ps: seq<Panel>)
    requires ps != [] && forall i :: 0 <= i < |ps| ==> PlainMode(ps[i].hiding)
    ensures Trimmed(Join(Reports(ps), ',')) && Join(Reports(ps), ',') != []
  {
    ReportParses(ps[0]);
    assert Report(ps[0]) != [];
    if |ps| > 1 { JoinedIsTrimmed(ps[1..]); }
  }

  lemma TrimNewline(s: string)
    requires Trimmed(s)
    ensures Trim(s + "\n") == s
  {
    var t := s + "\n";
    if s != [] {
      assert t[0] == s[0] && TrimStart(t) == t;
    } else {
      assert t == "\n" && TrimStart(t[1..]) == "";
    }
    if s != [] {
      assert t[..|t| - 1] == s;
      assert TrimEnd(s) == s;
    }
  }

  /** Whatever the panels report, with or without a final line break, reading it
      gives exactly their known modes. */
  lemma {:induction false} SaveRoundTrip(ps: seq<Panel>, newline: bool)
    requires forall i :: 0 <= i < |ps| ==> PlainMode(ps[i].hiding)
    ensures ParseSave(PrintSave(ps) + (if newline then "\n" else "")) == KnownOf(ps, map[])
  {
    var s := PrintSave(ps);
    if ps != [] { JoinedIsTrimmed(ps); }
    TrimNewline(s);
    TrimKeeps(s);
    assert s + "" == s;
    if ps == [] {
      assert Split("", ',') == [""] && [""][1..] == [];
      assert PairOf("").None?;
    } else {
      ReportsKept(ps, map[]);
      SplitJoin(Reports(ps), ',');
    }
  }

  /** No two panels share an entry: each panel's known mode is found under its own
      number, whatever the others are. */
  lemma {:induction false} EveryPanelFound(ps: seq<Panel>, onto: Modes, i: nat)
    requires i < |ps| && forall a, b :: 0 <= a < b < |ps| ==> ps[a].id != ps[b].id
    requires forall a :: 0 <= a < |ps| ==> Decimal(ps[a].id) !in onto
    ensures var m := KnownOf(ps, onto);
            if ModeOf(ps[i].hiding).Some?
            then Decimal(ps[i].id) in m && m[Decimal(ps[i].id)] == ModeOf(ps[i].hiding).value
            else Decimal(ps[i].id) !in m
    decreases ps
  {
    var key := Decimal(ps[i].id);
    var next := Noted(onto, ps[0]);
    if i == 0 {
      forall a | 0 <= a < |ps[1..]| ensures Decimal(ps[1..][a].id) != key {
        if Decimal(ps[1..][a].id) == key { DecimalInjective(ps[1..][a].id, ps[i].id); }
      }
      KnownElsewhere(ps[1..], next, key);
    } else {
      forall a | 0 <= a < |ps[1..]| ensures Decimal(ps[1..][a].id) !in next {
        if Decimal(ps[1..][a].id) == Decimal(ps[0].id) { DecimalInjective(ps[1..][a].id, ps[0].id); }
      }
      EveryPanelFound(ps[1..], next, i - 1);
    }
  }

  lemma {:induction false} KnownElsewhere(ps: seq<Panel>, onto: Modes, key: string)
    requires forall a :: 0 <= a < |ps| ==> Decimal(ps[a].id) != key
    ensures key in KnownOf(ps, onto) <==> key in onto
    ensures key in onto ==> KnownOf(ps, onto)[key] == onto[key]
    decreases ps
  {
    if ps != [] {
      assert Decimal(ps[0].id) != key;
      KnownElsewhere(ps[1..], Noted(onto, ps[0]), key);
    }
  }
}
