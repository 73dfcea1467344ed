/** Whether the game runs, judged from scans that can miss or fail. */
module Presence {
  import opened Texts

  const APPEAR_SCANS: nat := 2
  const DISAPPEAR_SCANS: nat := 3

  /** candidate is the value a flip is being counted for. */
  datatype Presence = Presence(running: bool, candidate: Option<bool>, count: nat)

  const ABSENT: Presence := Presence(false, None, 0)

  datatype Decision = Decision(next: Presence, commit: bool)

  function Need(found: bool): nat {
    if found then APPEAR_SCANS else DISAPPEAR_SCANS
  }

  /** One scan: seen, not seen, or None for a scan that failed. */
  function NextState(p: Presence, found: Option<bool>): Decision {
    if found.None? || found.value == p.running then Decision(Presence(p.running, None, 0), false) else
    var count := if p.candidate == found then p.count + 1 else 1;
    if count < Need(found.value) then Decision(Presence(p.running, found, count), false)
    else Decision(Presence(found.value, None, 0), true)
  }

  function RunScans(p: Presence, scans: seq<Option<bool>>): Presence {
    if scans == [] then p
    else NextState(RunScans(p, scans[..|scans| - 1]), scans[|scans| - 1]).next
  }

  /** How many scans committed a flip. */
  function Flips(scans: seq<Option<bool>>): nat {
    if scans == [] then 0 else
    var before := scans[..|scans| - 1];
    Flips(before) + (if NextState(RunScans(ABSENT, before), scans[|scans| - 1]).commit then 1 else 0)
  }

  predicate Even(n: nat) { n % 2 == 0 }

  /** The fewest scans that can hold k flips, the first of them a launch. */
  function Cost(k: nat): nat {
    APPEAR_SCANS * ((k + 1) / 2) + DISAPPEAR_SCANS * (k / 2)
  }

  /** The last n scans all saw this value. */
  predicate Ends(scans: seq<Option<bool>>, found: bool, n: nat) {
    n <= |scans| && forall i :: |scans| - n <= i < |scans| ==> scans[i] == Some(found)
  }

  predicate ScanOk(scans: seq<Option<bool>>) {
    var p, k := RunScans(ABSENT, scans), Flips(scans);
    && (p.running <==> !Even(k))
    && (match p.candidate
        case None => p.count == 0
        case Some(found) => found != p.running && 1 <= p.count < Need(found) && Ends(scans, found, p.count))
    && Cost(k) + p.count <= |scans|
  }

  lemma CostStep(k: nat)
    ensures Cost(k + 1) == Cost(k) + (if Even(k) then 2 else 3)
    ensures Even(k + 1) <==> !Even(k)
  {
    if Even(k) {
      assert k == 2 * (k / 2);
    } else {
      assert k == 2 * (k / 2) + 1;
    }
  }

  lemma ScanKeeps(before: seq<Option<bool>>, scan: Option<bool>)
    requires ScanOk(before)
    ensures ScanOk(before + [scan])
  {
    var p, k, scans := RunScans(ABSENT, before), Flips(before), before + [scan];
    assert scans[..|scans| - 1] == before;
    CostStep(k);
    if scan.None? || scan.value == p.running {
      assert Flips(scans) == k;
    } else if NextState(p, scan).commit {
      assert Flips(scans) == k + 1;
    } else {
      EndsGrow(before, scan, p, scan.value);
    }
  }

  lemma EndsGrow(before: seq<Option<bool>>, scan: Option<bool>, p: Presence, found: bool)
    requires scan == Some(found) && found != p.running
    requires p.candidate.Some? ==> p.candidate.value != p.running && Ends(before, p.candidate.value, p.count)
    ensures Ends(before + [scan], found, if p.candidate == scan then p.count + 1 else 1)
  {
  }

  lemma {:induction false} AllScansOk(scans: seq<Option<bool>>)
    ensures ScanOk(scans)
    decreases scans
  {
    if scans != [] {
      var before := scans[..|scans| - 1];
      AllScansOk(before);
      ScanKeeps(before, scans[|scans| - 1]);
      assert before + [scans[|scans| - 1]] == scans;
    }
  }

  // ----- what every trace guarantees -----

  /** Scans against the state that have not flipped it yet are all counted. */
  lemma {:induction false} Counted(scans: seq<Option<bool>>, found: bool, n: nat)
    requires Ends(scans, found, n) && n >= 1 && RunScans(ABSENT, scans).running != found
    ensures RunScans(ABSENT, scans).candidate == Some(found) && RunScans(ABSENT, scans).count >= n
    decreases n
  {
    var before := scans[..|scans| - 1];
    assert scans[|scans| - 1] == Some(found);
    if n > 1 && RunScans(ABSENT, before).running != found {
      assert forall i :: 0 <= i < |before| ==> before[i] == scans[i];
      Counted(before, found, n - 1);
    }
  }

  /** A scan commits a flip exactly when it and the one before it (for a launch) or
      the two before it (for an exit) all saw the new value, with no failed or
      contrary scan among them. */
  lemma FlipsExactly(before: seq<Option<bool>>, scan: Option<bool>)
    ensures var p := RunScans(ABSENT, before);
            NextState(p, scan).commit <==> Ends(before + [scan], !p.running, if p.running then 3 else 2)
  {
    AllScansOk(before);
    var p, scans := RunScans(ABSENT, before), before + [scan];
    var r := p.running;
    if Ends(scans, !r, Need(!r)) {
      assert scans[|before|] == scan;
      assert forall i :: 0 <= i < |before| ==> before[i] == scans[i];
      Counted(before, !r, Need(!r) - 1);
    }
  }

  /** Enough scans of one value in a row always settle on it, whatever came
      before. */
  lemma ConsecutiveScansFlip(before: seq<Option<bool>>, found: bool)
    ensures var scans := before + seq(Need(found), _ => Some(found));
            RunScans(ABSENT, scans).running == found
  {
    var p := RunScans(ABSENT, before);
    AllScansOk(before);
    OneMore(before, found);
    var s1 := before + [Some(found)];
    AllScansOk(s1);
    OneMore(s1, found);
    var s2 := s1 + [Some(found)];
    if found {
      assert s2 == before + seq(Need(found), _ => Some(found));
    } else {
      AllScansOk(s2);
      OneMore(s2, found);
      assert s2 + [Some(found)] == before + seq(Need(found), _ => Some(found));
    }
  }

  lemma OneMore(before: seq<Option<bool>>, found: bool)
    ensures RunScans(ABSENT, before + [Some(found)]) == NextState(RunScans(ABSENT, before), Some(found)).next
  {
    var scans := before + [Some(found)];
    assert scans[..|scans| - 1] == before;
  }

  /** From not running, k flips take at least two scans for every launch and three
      for every exit among them. */
  lemma {:induction false} FlipsAreRare(scans: seq<Option<bool>>)
    ensures var k := Flips(scans);
            APPEAR_SCANS * ((k + 1) / 2) + DISAPPEAR_SCANS * (k / 2) <= |scans|
    ensures RunScans(ABSENT, scans).running <==> Flips(scans) % 2 == 1
  {
    AllScansOk(scans);
  }

  class PresenceGate {
    var gameRunning: bool
    var candidate: Option<bool>
    var stableCount: nat

    function View(): Presence
      reads this
    {
      Presence(gameRunning, candidate, stableCount)
    }

    /** changed tells whether the rest of the overlay is to be told. */
    method OnScan(found: Option<bool>) returns (changed: bool)
      modifies this
      ensures Decision(View(), changed) == NextState(old(View()), found)
      ensures changed <==> gameRunning != old(gameRunning)
    {
      var r := NextState(View(), found);
      candidate, stableCount := r.next.candidate, r.next.count;
      if !r.commit { return false; }
      gameRunning := r.next.running;
      return true;
    }
  }
}
