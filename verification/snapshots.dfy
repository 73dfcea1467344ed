/** The export file's contract: what a provider may say about a game world. */
module Snapshots {
  import opened Texts

  const OBSERVATION_MS: real := 30000.0
  const ADVANCE_MS: real := OBSERVATION_MS
  const MAX_AGE_MS: real := 60000.0
  const MAX_SAFE_INTEGER: int := 0x1F_FFFF_FFFF_FFFF
  const NAMES_MAX: nat := 24

  /** The twelve keys of the contract, and any other key a document may hold. */
  datatype Key =
    | SchemaVersion | Environment | Provider | Build | SessionId | WorldGeneration
    | Sequence | ObservationSequence | ObservationAgeMs | State | OwnName | Names
    | Extra(name: string)

  const KEYS: set<Key> := {
    SchemaVersion, Environment, Provider, Build, SessionId, WorldGeneration,
    Sequence, ObservationSequence, ObservationAgeMs, State, OwnName, Names }

  /** A parsed JSON document. Objects keep the order of their keys, which is
      what re-serializing them shows. */
  datatype Json =
    | Null
    | Bool(b: bool)
    | Number(r: real)
    | Infinite
    | Text(s: string)
    | List(items: seq<Json>)
    | Object(fields: seq<(Key, Json)>)

  // ----- evidence -----

  function LowerChar(c: char): char {
    if 'A' <= c <= 'Z' then c + ('a' - 'A') else c
  }

  function Lower(s: string): string {
    if s == [] then [] else [LowerChar(s[0])] + Lower(s[1..])
  }

  function Norm(s: string): string {
    Lower(Trim(s))
  }

  function NormAll(names: seq<string>): multiset<string> {
    if names == [] then multiset{} else multiset{Norm(names[0])} + NormAll(names[1..])
  }

  /** Who is in the world. The code compares sorted lists; two sorted lists are
      equal exactly when they hold the same names the same number of times. */
  datatype Witness = Witness(provider: string, own: string, names: multiset<string>)

  function Evidence(provider: string, ownName: string, names: seq<string>): Witness {
    Witness(provider, Norm(ownName), NormAll(names))
  }

  datatype Activity = Active | Holding | Inactive

  datatype Snapshot = Snapshot(
    environment: string,
    provider: string,
    build: string,
    sessionId: string,
    worldGeneration: string,
    sequence: nat,
    observationSequence: nat,
    observationAgeMs: real,
    state: Activity,
    ownName: string,
    names: seq<string>,
    layout: seq<Key>,    // the order the keys came in
    evidence: Witness)   // fixed by provider, ownName and names

  predicate KnownEnvironment(s: string) {
    s == "dev" || s == "prod"
  }

  predicate KnownProvider(s: string) {
    s == "zfe" || s == "xscal"
  }

  predicate Short(s: string) {
    |s| <= 64
  }

  predicate NonceChar(c: char) {
    'a' <= c <= 'z' || '0' <= c <= '9' || c == '-'
  }

  predicate Nonce(s: string) {
    1 <= |s| <= 64 && forall i :: 0 <= i < |s| ==> NonceChar(s[i])
  }

  predicate Distinct<T(==)>(xs: seq<T>) {
    forall i, j :: 0 <= i < j < |xs| ==> xs[i] != xs[j]
  }

  /** Each of the twelve keys once and no other. */
  predicate Layout(keys: seq<Key>) {
    |keys| == 12 && Distinct(keys) && forall i :: 0 <= i < |keys| ==> !keys[i].Extra?
  }

  /** Everything the contract demands of one snapshot. */
  predicate WellFormed(s: Snapshot, environment: string, provider: string) {
    && s.environment == environment && KnownEnvironment(environment)
    && s.provider == provider && KnownProvider(provider)
    && Short(s.build) && s.build != ""
    && Nonce(s.sessionId) && Nonce(s.worldGeneration)
    && 0 < s.sequence <= MAX_SAFE_INTEGER
    && 0 < s.observationSequence <= MAX_SAFE_INTEGER
    && 0.0 <= s.observationAgeMs <= MAX_AGE_MS
    && Short(s.ownName) && |s.names| <= NAMES_MAX
    && (forall i :: 0 <= i < |s.names| ==> Short(s.names[i]))
    && Layout(s.layout)
    && s.evidence == Evidence(s.provider, s.ownName, s.names)
  }

  // ----- reading the parsed document -----

  function Keys(fields: seq<(Key, Json)>): (ks: seq<Key>)
    ensures |ks| == |fields|
    ensures forall i :: 0 <= i < |fields| ==> ks[i] == fields[i].0
  {
    seq(|fields|, i requires 0 <= i < |fields| => fields[i].0)
  }

  function Get(fields: seq<(Key, Json)>, key: Key): Json {
    if fields == [] then Null
    else if fields[0].0 == key then fields[0].1
    else Get(fields[1..], key)
  }

  predicate SafePositive(j: Json) {
    j.Number? && j.r == j.r.Floor as real && 0 < j.r.Floor <= MAX_SAFE_INTEGER
  }

  predicate ShortText(j: Json) {
    j.Text? && Short(j.s)
  }

  predicate ShortTexts(items: seq<Json>) {
    forall i :: 0 <= i < |items| ==> ShortText(items[i])
  }

  function ActivityOf(j: Json): Option<Activity> {
    if j == Text("active") then Some(Active)
    else if j == Text("holding") then Some(Holding)
    else if j == Text("inactive") then Some(Inactive)
    else None
  }

  function ActivityText(a: Activity): string {
    match a case Active => "active" case Holding => "holding" case Inactive => "inactive"
  }

  function Strings(items: seq<Json>): (ss: seq<string>)
    requires forall i :: 0 <= i < |items| ==> items[i].Text?
    ensures |ss| == |items|
    ensures forall i :: 0 <= i < |items| ==> ss[i] == items[i].s
  {
    seq(|items|, i requires 0 <= i < |items| => items[i].s)
  }

  /** The checks on the fields, whatever order they came in. */
  function ReadFields(get: Key -> Json, layout: seq<Key>, environment: string, provider: string): (r: Option<Snapshot>)
    requires Layout(layout)
    ensures r.Some? ==> WellFormed(r.value, environment, provider)
  {
    if get(SchemaVersion) != Number(1.0) then None else
    if get(Environment) != Text(environment) || !KnownEnvironment(environment) then None else
    if get(Provider) != Text(provider) || !KnownProvider(provider) then None else
    var build, session, world := get(Build), get(SessionId), get(WorldGeneration);
    if !ShortText(build) || build.s == "" then None else
    if !session.Text? || !Nonce(session.s) || !world.Text? || !Nonce(world.s) then None else
    var sequence, observation, age := get(Sequence), get(ObservationSequence), get(ObservationAgeMs);
    if !SafePositive(sequence) || !SafePositive(observation) then None else
    if !age.Number? || age.r < 0.0 || age.r > MAX_AGE_MS then None else
    var activity, ownName, names := ActivityOf(get(State)), get(OwnName), get(Names);
    if activity.None? || !ShortText(ownName) then None else
    if !names.List? || |names.items| > NAMES_MAX || !ShortTexts(names.items) then None else
    Some(Snapshot(environment, provider, build.s, session.s, world.s,
                  sequence.r.Floor, observation.r.Floor, age.r,
                  activity.value, ownName.s, Strings(names.items), layout,
                  Evidence(provider, ownName.s, Strings(names.items))))
  }

  /** parseSnapshot from the parsed document on; None stands for a text that is
      missing, too long or not JSON. */
  function ParseSnapshot(doc: Option<Json>, environment: string, provider: string): (r: Option<Snapshot>)
    ensures r.Some? ==> WellFormed(r.value, environment, provider)
  {
    if doc.None? || !doc.value.Object? || !Layout(Keys(doc.value.fields)) then None
    else ReadFields(Getter(doc.value.fields), Keys(doc.value.fields), environment, provider)
  }

  function Getter(fields: seq<(Key, Json)>): Key -> Json {
    key => Get(fields, key)
  }

  // ----- writing the document -----

  function FieldOf(s: Snapshot, key: Key): Json
    requires !key.Extra?
  {
    if key == SchemaVersion then Number(1.0)
    else if key == Environment then Text(s.environment)
    else if key == Provider then Text(s.provider)
    else if key == Build then Text(s.build)
    else if key == SessionId then Text(s.sessionId)
    else if key == WorldGeneration then Text(s.worldGeneration)
    else if key == Sequence then Number(s.sequence as real)
    else if key == ObservationSequence then Number(s.observationSequence as real)
    else if key == ObservationAgeMs then Number(s.observationAgeMs)
    else if key == State then Text(ActivityText(s.state))
    else if key == OwnName then Text(s.ownName)
    else List(seq(|s.names|, i requires 0 <= i < |s.names| => Text(s.names[i])))
  }

  /** What JSON.stringify writes for a snapshot: its fields in their own order. */
  function Render(s: Snapshot): (doc: Json)
    requires Layout(s.layout)
    ensures doc.Object? && Keys(doc.fields) == s.layout
  {
    var fields := seq(|s.layout|, i requires 0 <= i < |s.layout| => (s.layout[i], FieldOf(s, s.layout[i])));
    assert Keys(fields) == s.layout;
    Object(fields)
  }

  lemma {:induction false} GetAt(fields: seq<(Key, Json)>, i: nat)
    requires i < |fields| && Distinct(Keys(fields))
    ensures Get(fields, fields[i].0) == fields[i].1
  {
    if i > 0 {
      assert Keys(fields)[0] != Keys(fields)[i];
      assert Keys(fields[1..]) == Keys(fields)[1..];
      GetAt(fields[1..], i - 1);
    }
  }

  lemma {:induction false} SizeOfDistinct<T>(xs: seq<T>)
    requires Distinct(xs)
    ensures |set x | x in xs| == |xs|
  {
    if xs != [] {
      SizeOfDistinct(xs[1..]);
      assert xs == [xs[0]] + xs[1..];
      assert (set x | x in xs) == (set x | x in xs[1..]) + {xs[0]};
    }
  }

  lemma SubsetOfSameSize<T>(small: set<T>, all: set<T>)
    requires small <= all && |small| == |all|
    ensures small == all
  {
    assert |all - small| == 0;
  }

  /** Twelve different contract keys are all of them. */
  lemma LayoutHas(keys: seq<Key>, key: Key)
    requires Layout(keys) && !key.Extra?
    ensures key in keys
  {
    SizeOfDistinct(keys);
    SubsetOfSameSize((set k | k in keys), KEYS);
  }

  lemma GetRendered(s: Snapshot, key: Key)
    requires Layout(s.layout) && !key.Extra?
    ensures Get(Render(s).fields, key) == FieldOf(s, key)
  {
    LayoutHas(s.layout, key);
    var i :| 0 <= i < |s.layout| && s.layout[i] == key;
    GetAt(Render(s).fields, i);
  }

  /** Round trip: a document is accepted as s exactly when s meets the contract
      and the document is s written out, nothing more and nothing less. */
  lemma ParseExactly(doc: Json, s: Snapshot, environment: string, provider: string)
    ensures ParseSnapshot(Some(doc), environment, provider) == Some(s)
            <==> WellFormed(s, environment, provider) && doc == Render(s)
  {
    if WellFormed(s, environment, provider) && doc == Render(s) {
      RenderedParses(s, environment, provider);
    }
    if ParseSnapshot(Some(doc), environment, provider) == Some(s) {
      ParsedRenders(doc, s, environment, provider);
    }
  }

  lemma RenderedParses(s: Snapshot, environment: string, provider: string)
    requires WellFormed(s, environment, provider)
    ensures ParseSnapshot(Some(Render(s)), environment, provider) == Some(s)
  {
    var get := Getter(Render(s).fields);
    forall key: Key | !key.Extra? ensures get(key) == FieldOf(s, key) { GetRendered(s, key); }
    RenderedIsSpelled(get, s);
    SpelledIsRead(get, s, environment, provider);
  }

  lemma RenderedIsSpelled(get: Key -> Json, s: Snapshot)
    requires forall key: Key :: !key.Extra? ==> get(key) == FieldOf(s, key)
    ensures Spelled(get, s)
  {
    ScalarsSpelled(get, s);
  }

  lemma ScalarsSpelled(get: Key -> Json, s: Snapshot)
    requires forall key: Key :: !key.Extra? ==> get(key) == FieldOf(s, key)
    ensures Scalars(get, s)
  {
  }

  lemma SpelledIsRead(get: Key -> Json, s: Snapshot, environment: string, provider: string)
    requires WellFormed(s, environment, provider) && Spelled(get, s)
    ensures ReadFields(get, s.layout, environment, provider) == Some(s)
  {
    match s.state { case Active => case Holding => case Inactive => }
  }

  lemma ParsedRenders(doc: Json, s: Snapshot, environment: string, provider: string)
    requires ParseSnapshot(Some(doc), environment, provider) == Some(s)
    ensures doc == Render(s)
  {
    var f := doc.fields;
    ReadIsSpelled(Getter(f), Keys(f), s, environment, provider);
    forall i | 0 <= i < |f| ensures f[i] == Render(s).fields[i] {
      GetAt(f, i);
      assert s.layout[i] == f[i].0;
      FieldRead(Getter(f), s, f[i].0);
    }
    assert f == Render(s).fields;
  }

  /** The fields spell s. */
  predicate Spelled(get: Key -> Json, s: Snapshot) {
    && Scalars(get, s)
    && get(Names).List? && AllTexts(get(Names).items) && s.names == Strings(get(Names).items)
  }

  predicate Scalars(get: Key -> Json, s: Snapshot) {
    && get(SchemaVersion) == Number(1.0)
    && get(Environment) == Text(s.environment) && get(Provider) == Text(s.provider)
    && get(Build) == Text(s.build) && get(SessionId) == Text(s.sessionId)
    && get(WorldGeneration) == Text(s.worldGeneration) && get(OwnName) == Text(s.ownName)
    && get(Sequence) == Number(s.sequence as real)
    && get(ObservationSequence) == Number(s.observationSequence as real)
    && get(ObservationAgeMs) == Number(s.observationAgeMs)
    && get(State) == Text(ActivityText(s.state))
  }

  predicate AllTexts(items: seq<Json>) {
    forall i :: 0 <= i < |items| ==> items[i].Text?
  }

  lemma ReadIsSpelled(get: Key -> Json, layout: seq<Key>, s: Snapshot, environment: string, provider: string)
    requires Layout(layout) && ReadFields(get, layout, environment, provider) == Some(s)
    ensures Spelled(get, s) && s.layout == layout
  {
  }

  lemma FieldRead(get: Key -> Json, s: Snapshot, key: Key)
    requires Spelled(get, s) && !key.Extra?
    ensures get(key) == FieldOf(s, key)
  {
  }

  // ----- keys -----

  /** The text keys the code builds from a snapshot. */
  datatype WorldKey =
    | GenerationKey(provider: string, sessionId: string, worldGeneration: string)
    | SessionKey(sessionId: string)

  function Generation(s: Snapshot): WorldKey {
    GenerationKey(s.provider, s.sessionId, s.worldGeneration)
  }

  function Spell(k: WorldKey): string {
    match k
    case GenerationKey(provider, session, world) => provider + "/" + session + "/" + world
    case SessionKey(session) => "session/" + session
  }

  /** The checks on provider and nonces that make the texts unambiguous. */
  predicate Keyed(s: Snapshot) {
    KnownProvider(s.provider) && Nonce(s.sessionId) && Nonce(s.worldGeneration)
  }

  predicate Spellable(k: WorldKey) {
    && Nonce(k.sessionId)
    && (k.GenerationKey? ==> KnownProvider(k.provider) && Nonce(k.worldGeneration))
  }

  lemma NonceNoSlash(s: string)
    requires Nonce(s)
    ensures '/' !in s
  {
  }

  lemma SpelledApart(g: WorldKey, k: WorldKey)
    requires g.GenerationKey? && k.SessionKey? && Spellable(g)
    ensures Spell(g) != Spell(k)
  {
    assert Spell(g)[0] == g.provider[0];
    assert Spell(k)[0] == 's';
  }

  lemma SpellInjective(a: WorldKey, b: WorldKey)
    requires Spellable(a) && Spellable(b) && Spell(a) == Spell(b)
    ensures a == b
  {
    NonceNoSlash(a.sessionId); NonceNoSlash(b.sessionId);
    if a.GenerationKey? && b.GenerationKey? {
      NonceNoSlash(a.worldGeneration); NonceNoSlash(b.worldGeneration);
      LastSeparator(a.provider + "/" + a.sessionId, a.worldGeneration,
                    b.provider + "/" + b.sessionId, b.worldGeneration, '/');
      LastSeparator(a.provider, a.sessionId, b.provider, b.sessionId, '/');
    } else if a.SessionKey? && b.SessionKey? {
      assert Spell(a)[8..] == a.sessionId && Spell(b)[8..] == b.sessionId;
    } else {
      SpelledApart(if a.GenerationKey? then a else b, if a.GenerationKey? then b else a);
    }
  }

  function SpellAll(ks: set<WorldKey>): set<string> {
    set k | k in ks :: Spell(k)
  }

  /** A set of the texts answers membership as the set of keys does. */
  lemma SpelledMembership(ks: set<WorldKey>, k: WorldKey)
    requires Spellable(k) && forall x :: x in ks ==> Spellable(x)
    ensures Spell(k) in SpellAll(ks) <==> k in ks
  {
    if Spell(k) in SpellAll(ks) {
      var x :| x in ks && Spell(x) == Spell(k);
      SpellInjective(x, k);
    }
  }

  predicate Named(s: Snapshot) {
    s.evidence.own != ""
  }

  lemma {:induction false} LowerLength(s: string)
    ensures |Lower(s)| == |s|
  {
    if s != [] { LowerLength(s[1..]); }
  }

  /** Named is the code's test that the own name is more than white space. */
  lemma NamedMeans(s: Snapshot, environment: string, provider: string)
    requires WellFormed(s, environment, provider)
    ensures Named(s) <==> Trim(s.ownName) != ""
  {
    LowerLength(Trim(s.ownName));
  }
}
