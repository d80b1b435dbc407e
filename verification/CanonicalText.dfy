/** The text that stands for a safety event towards remote providers, and a parser that undoes it. */
module CanonicalText {
  import opened Options
  import opened Sequences
  import opened Text

  const MAPPING_VERSION := "safety-event-map-v1"
  const MAX_OFFSET_MS := 604800000

  datatype EventType =
    | ForkliftPersonProximity | PpeMissing | RestrictedZoneIntrusion | UnsafeVehicleOperation
    | FallOrPersonDown | SmokeOrFire | NoSafetyEvent | OtherSafetyEvent
  datatype ObjectCategory = Person | Forklift | Vehicle | Helmet | SafetyVest | Respirator | Smoke | Fire
  datatype RiskLevel = NoRisk | LowRisk | MediumRisk | HighRisk | CriticalRisk
  datatype Confidence = LowConfidence | MediumConfidence | HighConfidence
  datatype RuleTag =
    | VehiclePersonSeparation | PpeHelmet | PpeSafetyVest | PpeRespiratory
    | RestrictedZone | SafeVehicleOperation | FallResponse | FireResponse
  datatype PpeItem = HelmetItem | SafetyVestItem | RespiratorItem
  datatype PpeStatus = Present | Missing | Unknown

  datatype ObjectCount = ObjectCount(category: ObjectCategory, count: nat)
  datatype PpeState = PpeState(item: PpeItem, status: PpeStatus)

  datatype SafetyEvent = SafetyEvent(
    eventType: EventType,
    startOffsetMs: nat,
    endOffsetMs: nat,
    objects: seq<ObjectCount>,
    riskLevel: RiskLevel,
    confidence: Confidence,
    ruleTags: seq<RuleTag>,
    ppe: seq<PpeState>)

  predicate Valid(e: SafetyEvent) {
    && e.startOffsetMs <= e.endOffsetMs <= MAX_OFFSET_MS
    && |e.objects| <= 16 && |e.ruleTags| <= 16 && |e.ppe| <= 3
    && (forall i :: 0 <= i < |e.objects| ==> 1 <= e.objects[i].count <= 100)
    && (forall i, j :: 0 <= i < j < |e.objects| ==> e.objects[i].category != e.objects[j].category)
    && (forall i, j :: 0 <= i < j < |e.ruleTags| ==> e.ruleTags[i] != e.ruleTags[j])
    && (forall i, j :: 0 <= i < j < |e.ppe| ==> e.ppe[i].item != e.ppe[j].item)
  }

  /** The same event but for the order of its objects, rules and protective equipment. */
  predicate SameContent(a: SafetyEvent, b: SafetyEvent) {
    && a.eventType == b.eventType && a.startOffsetMs == b.startOffsetMs && a.endOffsetMs == b.endOffsetMs
    && a.riskLevel == b.riskLevel && a.confidence == b.confidence
    && multiset(a.objects) == multiset(b.objects)
    && multiset(a.ruleTags) == multiset(b.ruleTags)
    && multiset(a.ppe) == multiset(b.ppe)
  }

  // ---- names ----

  /** Lower-case letters and underscores: nothing the printer uses as a separator. */
  predicate Word(s: string) {
    s != "" && forall i :: 0 <= i < |s| ==> 'a' <= s[i] <= 'z' || s[i] == '_'
  }

  function EventName(t: EventType): string {
    match t
    case ForkliftPersonProximity => "forklift_person_proximity"
    case PpeMissing => "ppe_missing"
    case RestrictedZoneIntrusion => "restricted_zone_intrusion"
    case UnsafeVehicleOperation => "unsafe_vehicle_operation"
    case FallOrPersonDown => "fall_or_person_down"
    case SmokeOrFire => "smoke_or_fire"
    case NoSafetyEvent => "no_safety_event"
    case OtherSafetyEvent => "other_safety_event"
  }

  lemma SafetyEventWord(t: EventType)
    requires t == ForkliftPersonProximity || t == PpeMissing || t == RestrictedZoneIntrusion || t == UnsafeVehicleOperation
    ensures Word(EventName(t))
  {
  }

  lemma EventWord(t: EventType)
    ensures Word(EventName(t))
  {
    match t
    case ForkliftPersonProximity | PpeMissing | RestrictedZoneIntrusion | UnsafeVehicleOperation => SafetyEventWord(t);
    case FallOrPersonDown | SmokeOrFire | NoSafetyEvent | OtherSafetyEvent =>
  }

  function CategoryName(c: ObjectCategory): (s: string)
    ensures Word(s)
  {
    match c
    case Person => "person"
    case Forklift => "forklift"
    case Vehicle => "vehicle"
    case Helmet => "helmet"
    case SafetyVest => "safety_vest"
    case Respirator => "respirator"
    case Smoke => "smoke"
    case Fire => "fire"
  }

  function RiskName(r: RiskLevel): (s: string)
    ensures Word(s)
  {
    match r
    case NoRisk => "none"
    case LowRisk => "low"
    case MediumRisk => "medium"
    case HighRisk => "high"
    case CriticalRisk => "critical"
  }

  function ConfidenceName(c: Confidence): (s: string)
    ensures Word(s)
  {
    match c
    case LowConfidence => "low"
    case MediumConfidence => "medium"
    case HighConfidence => "high"
  }

  function RuleName(t: RuleTag): string {
    match t
    case VehiclePersonSeparation => "vehicle_person_separation"
    case PpeHelmet => "ppe_helmet"
    case PpeSafetyVest => "ppe_safety_vest"
    case PpeRespiratory => "ppe_respiratory"
    case RestrictedZone => "restricted_zone"
    case SafeVehicleOperation => "safe_vehicle_operation"
    case FallResponse => "fall_response"
    case FireResponse => "fire_response"
  }

  lemma PpeRuleWord(t: RuleTag)
    requires t == VehiclePersonSeparation || t == PpeHelmet || t == PpeSafetyVest || t == PpeRespiratory
    ensures Word(RuleName(t)) && RuleName(t) != "none"
  {
  }

  lemma RuleWord(t: RuleTag)
    ensures Word(RuleName(t)) && RuleName(t) != "none"
  {
    match t
    case VehiclePersonSeparation | PpeHelmet | PpeSafetyVest | PpeRespiratory => PpeRuleWord(t);
    case RestrictedZone | SafeVehicleOperation | FallResponse | FireResponse =>
  }

  function ItemName(i: PpeItem): (s: string)
    ensures Word(s)
  {
    match i
    case HelmetItem => "helmet"
    case SafetyVestItem => "safety_vest"
    case RespiratorItem => "respirator"
  }

  function StatusName(s: PpeStatus): (n: string)
    ensures Word(n)
  {
    match s
    case Present => "present"
    case Missing => "missing"
    case Unknown => "unknown"
  }

  // ---- sorting by name ----

  predicate Before(a: string, b: string) {
    b != "" && (a == "" || a[0] < b[0] || (a[0] == b[0] && Before(a[1..], b[1..])))
  }

  lemma {:induction false} BeforeIsTransitive(a: string, b: string, c: string)
    requires Before(a, b) && Before(b, c)
    ensures Before(a, c)
  {
    if a != "" && a[0] == b[0] && b[0] == c[0] {
      BeforeIsTransitive(a[1..], b[1..], c[1..]);
    }
  }

  lemma {:induction false} BeforeIsTotal(a: string, b: string)
    ensures Before(a, b) || Before(b, a) || a == b
    ensures !(Before(a, b) && Before(b, a)) && !Before(a, a)
    decreases |a|
  {
    if a != "" {
      BeforeIsTotal(a[1..], a[1..]);
      if b != "" && a[0] == b[0] {
        BeforeIsTotal(a[1..], b[1..]);
        assert a[1..] == b[1..] ==> a == b by {
          assert a == [a[0]] + a[1..] && b == [b[0]] + b[1..];
        }
      }
    }
  }

  function Insert<T>(x: T, s: seq<T>, key: T -> string): seq<T> {
    if s == [] || !Before(key(s[0]), key(x)) then [x] + s else [s[0]] + Insert(x, s[1..], key)
  }

  function SortBy<T>(s: seq<T>, key: T -> string): seq<T> {
    if s == [] then [] else Insert(s[0], SortBy(s[1..], key), key)
  }

  predicate AllAfter<T>(k: string, s: seq<T>, key: T -> string) {
    forall i :: 0 <= i < |s| ==> Before(k, key(s[i]))
  }

  predicate Increasing<T>(s: seq<T>, key: T -> string) {
    s == [] || (AllAfter(key(s[0]), s[1..], key) && Increasing(s[1..], key))
  }

  predicate NoneAt<T>(k: string, s: seq<T>, key: T -> string) {
    forall i :: 0 <= i < |s| ==> key(s[i]) != k
  }

  predicate DistinctKeys<T>(s: seq<T>, key: T -> string) {
    s == [] || (NoneAt(key(s[0]), s[1..], key) && DistinctKeys(s[1..], key))
  }

  lemma {:induction false} InsertPermutes<T>(x: T, s: seq<T>, key: T -> string)
    ensures multiset(Insert(x, s, key)) == multiset(s) + multiset{x}
  {
    if s != [] {
      assert s == [s[0]] + s[1..];
      InsertPermutes(x, s[1..], key);
    }
  }

  lemma MembersAfter<T>(k: string, a: seq<T>, b: seq<T>, x: T, key: T -> string)
    requires AllAfter(k, a, key) && Before(k, key(x)) && multiset(b) == multiset(a) + multiset{x}
    ensures AllAfter(k, b, key)
  {
    forall i | 0 <= i < |b| ensures Before(k, key(b[i])) {
      assert b[i] in multiset(b);
      if b[i] != x {
        assert b[i] in multiset(a);
        var j :| 0 <= j < |a| && a[j] == b[i];
      }
    }
  }

  lemma AfterAll<T>(k: string, s: seq<T>, key: T -> string)
    requires s != [] && Increasing(s, key) && Before(k, key(s[0]))
    ensures AllAfter(k, s, key)
  {
    forall i | 0 <= i < |s| ensures Before(k, key(s[i])) {
      if i > 0 {
        assert s[i] == s[1..][i - 1];
        BeforeIsTransitive(k, key(s[0]), key(s[i]));
      }
    }
  }

  lemma {:induction false} InsertIncreases<T>(x: T, s: seq<T>, key: T -> string)
    requires Increasing(s, key) && NoneAt(key(x), s, key)
    ensures Increasing(Insert(x, s, key), key)
  {
    if s != [] {
      BeforeIsTotal(key(s[0]), key(x));
      if Before(key(s[0]), key(x)) {
        InsertIncreases(x, s[1..], key);
        InsertPermutes(x, s[1..], key);
        var rest := Insert(x, s[1..], key);
        MembersAfter(key(s[0]), s[1..], rest, x, key);
        assert ([s[0]] + rest)[1..] == rest;
      } else {
        AfterAll(key(x), s, key);
        assert ([x] + s)[1..] == s;
      }
    }
  }

  lemma {:induction false} SortByPermutes<T>(s: seq<T>, key: T -> string)
    ensures multiset(SortBy(s, key)) == multiset(s)
  {
    if s != [] {
      SortByPermutes(s[1..], key);
      InsertPermutes(s[0], SortBy(s[1..], key), key);
      assert s == [s[0]] + s[1..];
    }
  }

  lemma {:induction false} SortByIncreases<T>(s: seq<T>, key: T -> string)
    requires DistinctKeys(s, key)
    ensures Increasing(SortBy(s, key), key)
  {
    if s != [] {
      var rest := SortBy(s[1..], key);
      SortByIncreases(s[1..], key);
      SortByPermutes(s[1..], key);
      forall i | 0 <= i < |rest| ensures key(rest[i]) != key(s[0]) {
        assert rest[i] in multiset(rest);
        assert rest[i] in multiset(s[1..]);
        var j :| 0 <= j < |s[1..]| && s[1..][j] == rest[i];
      }
      InsertIncreases(s[0], rest, key);
    }
  }

  lemma FirstIsLeast<T>(a: seq<T>, b: seq<T>, key: T -> string)
    requires a != [] && b != [] && multiset(a) == multiset(b) && Increasing(a, key) && Increasing(b, key)
    ensures a[0] == b[0]
  {
    assert a[0] in multiset(b) && b[0] in multiset(a);
    var i :| 0 <= i < |b| && b[i] == a[0];
    var j :| 0 <= j < |a| && a[j] == b[0];
    if i > 0 && j > 0 {
      assert b[i] == b[1..][i - 1] && a[j] == a[1..][j - 1];
      BeforeIsTotal(key(a[0]), key(b[0]));
    }
  }

  /** Two increasing lists of the same elements are the same list. */
  lemma {:induction false} IncreasingUnique<T>(a: seq<T>, b: seq<T>, key: T -> string)
    requires multiset(a) == multiset(b) && Increasing(a, key) && Increasing(b, key)
    ensures a == b
  {
    assert |a| == |multiset(a)| && |b| == |multiset(b)|;
    if a != [] {
      FirstIsLeast(a, b, key);
      assert a == [a[0]] + a[1..] && b == [b[0]] + b[1..];
      assert multiset(a[1..]) == multiset(a) - multiset{a[0]} && multiset(b[1..]) == multiset(b) - multiset{b[0]};
      IncreasingUnique(a[1..], b[1..], key);
    }
  }

  /** Sorting forgets exactly the order. */
  lemma SortedAlikeIff<T>(a: seq<T>, b: seq<T>, key: T -> string)
    requires DistinctKeys(a, key) && DistinctKeys(b, key)
    ensures SortBy(a, key) == SortBy(b, key) <==> multiset(a) == multiset(b)
  {
    SortByPermutes(a, key);
    SortByPermutes(b, key);
    if multiset(a) == multiset(b) {
      SortByIncreases(a, key);
      SortByIncreases(b, key);
      IncreasingUnique(SortBy(a, key), SortBy(b, key), key);
    }
  }

  // ---- the printer ----

  function Listed(tokens: seq<string>): string {
    if tokens == [] then "none" else Join(tokens, ',')
  }

  const CategoryKey := (o: ObjectCount) => CategoryName(o.category)
  const RuleKey := (t: RuleTag) => RuleName(t)
  const ItemKey := (p: PpeState) => ItemName(p.item)
  const ObjectToken := (o: ObjectCount) => CategoryName(o.category) + ":" + Decimal(o.count)
  const PpeToken := (p: PpeState) => ItemName(p.item) + ":" + StatusName(p.status)

  function ObjectText(e: SafetyEvent): string { Listed(Map(SortBy(e.objects, CategoryKey), ObjectToken)) }

  function RuleText(e: SafetyEvent): string { Listed(Map(SortBy(e.ruleTags, RuleKey), RuleKey)) }

  function PpeText(e: SafetyEvent): string { Listed(Map(SortBy(e.ppe, ItemKey), PpeToken)) }

  /** A field is its name, an equals sign, and the value. */
  function Field(name: string, value: string): string { name + "=" + value }

  function OffsetText(e: SafetyEvent): string { Decimal(e.startOffsetMs) + "-" + Decimal(e.endOffsetMs) }

  function Print(e: SafetyEvent): string {
    Field("mapping", MAPPING_VERSION) + ";" + (
    Field("event", EventName(e.eventType)) + ";" + (
    Field("offset_ms", OffsetText(e)) + ";" + (
    Field("objects", ObjectText(e)) + ";" + (
    Field("risk", RiskName(e.riskLevel)) + ";" + (
    Field("confidence", ConfidenceName(e.confidence)) + ";" + (
    Field("rules", RuleText(e)) + ";" +
    Field("ppe", PpeText(e))))))))
  }

  // ---- the parser ----

  datatype Parsed = Parsed(
    mapping: string,
    eventType: string,
    offsets: seq<string>,
    objects: seq<seq<string>>,
    riskLevel: string,
    confidence: string,
    ruleTags: seq<seq<string>>,
    ppe: seq<seq<string>>)

  function ValueOf(field: string): string {
    var n := Index(field, '=');
    if n == |field| then "" else field[n + 1..]
  }

  function ParseList(text: string): seq<seq<string>> {
    if text == "none" then [] else
      var tokens := Split(text, ',');
      seq(|tokens|, i requires 0 <= i < |tokens| => Split(tokens[i], ':'))
  }

  function Parse(text: string): Option<Parsed> {
    var f := Split(text, ';');
    if |f| != 8 then None
    else Some(Parsed(ValueOf(f[0]), ValueOf(f[1]), Split(ValueOf(f[2]), '-'), ParseList(ValueOf(f[3])),
                     ValueOf(f[4]), ValueOf(f[5]), ParseList(ValueOf(f[6])), ParseList(ValueOf(f[7]))))
  }

  function Pair(a: string, b: string): seq<string> { [a, b] }

  const ObjectParts := (o: ObjectCount) => Pair(CategoryName(o.category), Decimal(o.count))
  const RuleParts := (t: RuleTag) => [RuleName(t)]
  const PpeParts := (p: PpeState) => Pair(ItemName(p.item), StatusName(p.status))

  /** What the text says about an event: its names and numbers, the lists sorted. */
  function Content(e: SafetyEvent): Parsed {
    Parsed(MAPPING_VERSION, EventName(e.eventType), [Decimal(e.startOffsetMs), Decimal(e.endOffsetMs)],
           Map(SortBy(e.objects, CategoryKey), ObjectParts), RiskName(e.riskLevel), ConfidenceName(e.confidence),
           Map(SortBy(e.ruleTags, RuleKey), RuleParts), Map(SortBy(e.ppe, ItemKey), PpeParts))
  }

  // ---- the parser undoes the printer ----

  lemma WordHasNone(s: string, sep: char)
    requires Word(s) && !('a' <= sep <= 'z') && sep != '_'
    ensures sep !in s
  {
  }

  lemma DigitsHaveNone(s: string, sep: char)
    requires Digits(s) && !('0' <= sep <= '9')
    ensures sep !in s
  {
  }

  lemma PairSplits(a: string, b: string, sep: char)
    requires sep !in a && sep !in b
    ensures Split(a + [sep] + b, sep) == [a, b]
  {
    assert Join([a, b], sep) == a + [sep] + b by {
      assert [a, b][1..] == [b];
    }
    SplitJoin([a, b], sep);
  }

  lemma OnlyNoneReadsNone(tokens: seq<string>)
    requires tokens != [] && forall i :: 0 <= i < |tokens| ==> ',' !in tokens[i]
    ensures Join(tokens, ',') == "none" ==> tokens[0] == "none"
  {
    SplitJoin(tokens, ',');
    SplitJoin(["none"], ',');
  }

  lemma ListUndone(tokens: seq<string>)
    requires forall i :: 0 <= i < |tokens| ==> ',' !in tokens[i] && tokens[i] != "none"
    ensures |ParseList(Listed(tokens))| == |tokens|
    ensures forall i :: 0 <= i < |tokens| ==> ParseList(Listed(tokens))[i] == Split(tokens[i], ':')
  {
    if tokens != [] {
      SplitJoin(tokens, ',');
      OnlyNoneReadsNone(tokens);
    }
  }

  lemma ObjectTokenSplits(o: ObjectCount)
    ensures Reads(ObjectToken(o), ObjectParts(o))
  {
    var name, count := CategoryName(o.category), Decimal(o.count);
    WordHasNone(name, ':');
    DigitsHaveNone(count, ':');
    PairSplits(name, count, ':');
    assert ObjectToken(o)[|name|] == ':';
  }

  lemma PpeTokenSplits(p: PpeState)
    ensures Reads(PpeToken(p), PpeParts(p))
  {
    var name, status := ItemName(p.item), StatusName(p.status);
    WordHasNone(name, ':');
    WordHasNone(status, ':');
    PairSplits(name, status, ':');
    assert PpeToken(p)[|name|] == ':';
  }

  lemma RuleTokenSplits(t: RuleTag)
    ensures Reads(RuleKey(t), RuleParts(t))
  {
    RuleWord(t);
    SplitJoin([RuleName(t)], ':');
  }

  lemma {:induction false} JoinHasNone(parts: seq<string>, joiner: char, sep: char)
    requires joiner != sep && forall i :: 0 <= i < |parts| ==> sep !in parts[i]
    ensures sep !in Join(parts, joiner)
  {
    if |parts| > 1 {
      JoinHasNone(parts[1..], joiner, sep);
    }
  }

  predicate Reads(token: string, parts: seq<string>) {
    Split(token, ':') == parts && ',' !in token && ';' !in token && token != "none"
  }

  /** A printed list reads back as the parts of its elements. */
  lemma TokensUndone<T>(s: seq<T>, token: T -> string, parts: T -> seq<string>)
    requires forall i :: 0 <= i < |s| ==> Reads(token(s[i]), parts(s[i]))
    ensures ParseList(Listed(Map(s, token))) == Map(s, parts)
    ensures ';' !in Listed(Map(s, token))
  {
    ListUndone(Map(s, token));
    JoinHasNone(Map(s, token), ',', ';');
  }

  lemma ObjectsUndone(s: seq<ObjectCount>)
    ensures ParseList(Listed(Map(s, ObjectToken))) == Map(s, ObjectParts) && ';' !in Listed(Map(s, ObjectToken))
  {
    forall i | 0 <= i < |s| ensures Reads(ObjectToken(s[i]), ObjectParts(s[i])) { ObjectTokenSplits(s[i]); }
    TokensUndone(s, ObjectToken, ObjectParts);
  }

  lemma RulesUndone(s: seq<RuleTag>)
    ensures ParseList(Listed(Map(s, RuleKey))) == Map(s, RuleParts) && ';' !in Listed(Map(s, RuleKey))
  {
    forall i | 0 <= i < |s| ensures Reads(RuleKey(s[i]), RuleParts(s[i])) { RuleTokenSplits(s[i]); }
    TokensUndone(s, RuleKey, RuleParts);
  }

  lemma PpeUndone(s: seq<PpeState>)
    ensures ParseList(Listed(Map(s, PpeToken))) == Map(s, PpeParts) && ';' !in Listed(Map(s, PpeToken))
  {
    forall i | 0 <= i < |s| ensures Reads(PpeToken(s[i]), PpeParts(s[i])) { PpeTokenSplits(s[i]); }
    TokensUndone(s, PpeToken, PpeParts);
  }

  lemma FieldUndone(name: string, value: string)
    requires '=' !in name && ';' !in name && ';' !in value
    ensures ValueOf(Field(name, value)) == value && ';' !in Field(name, value)
  {
    assert Field(name, value) == name + ("=" + value);
    IndexAfter(name, "=" + value, '=');
    assert Field(name, value)[|name| + 1..] == value;
  }

  function Fields(e: SafetyEvent): seq<string> {
    [Field("mapping", MAPPING_VERSION), Field("event", EventName(e.eventType)), Field("offset_ms", OffsetText(e)),
     Field("objects", ObjectText(e)), Field("risk", RiskName(e.riskLevel)), Field("confidence", ConfidenceName(e.confidence)),
     Field("rules", RuleText(e)), Field("ppe", PpeText(e))]
  }

  lemma JoinFirst(a: string, rest: seq<string>)
    requires rest != []
    ensures Join([a] + rest, ';') == a + ";" + Join(rest, ';')
  {
    assert ([a] + rest)[1..] == rest;
  }

  lemma JoinEight(f: seq<string>)
    requires |f| == 8
    ensures Join(f, ';') ==
      f[0] + ";" + (f[1] + ";" + (f[2] + ";" + (f[3] + ";" + (f[4] + ";" + (f[5] + ";" + (f[6] + ";" + f[7]))))))
  {
    hide Join;
    assert [f[0]] + f[1..] == f && [f[1]] + f[2..] == f[1..] && [f[2]] + f[3..] == f[2..] && [f[3]] + f[4..] == f[3..];
    assert [f[4]] + f[5..] == f[4..] && [f[5]] + f[6..] == f[5..] && [f[6]] + f[7..] == f[6..] && f[7..] == [f[7]];
    JoinFirst(f[0], f[1..]);
    JoinFirst(f[1], f[2..]);
    JoinFirst(f[2], f[3..]);
    JoinFirst(f[3], f[4..]);
    JoinFirst(f[4], f[5..]);
    JoinFirst(f[5], f[6..]);
    JoinFirst(f[6], f[7..]);
    JoinOne(f[7]);
  }

  lemma JoinOne(a: string)
    ensures Join([a], ';') == a
  {
  }

  lemma PrintIsJoined(e: SafetyEvent)
    ensures Print(e) == Join(Fields(e), ';')
  {
    hide Join, Field, OffsetText, ObjectText, RuleText, PpeText, EventName, RiskName, ConfidenceName;
    JoinEight(Fields(e));
  }

  lemma TextsHaveNone(e: SafetyEvent)
    ensures ';' !in EventName(e.eventType) && ';' !in RiskName(e.riskLevel) && ';' !in ConfidenceName(e.confidence)
    ensures ';' !in OffsetText(e) && ';' !in ObjectText(e) && ';' !in RuleText(e) && ';' !in PpeText(e)
  {
    EventWord(e.eventType);
    WordHasNone(EventName(e.eventType), ';');
    WordHasNone(RiskName(e.riskLevel), ';');
    WordHasNone(ConfidenceName(e.confidence), ';');
    DigitsHaveNone(Decimal(e.startOffsetMs), ';');
    DigitsHaveNone(Decimal(e.endOffsetMs), ';');
    ObjectsUndone(SortBy(e.objects, CategoryKey));
    RulesUndone(SortBy(e.ruleTags, RuleKey));
    PpeUndone(SortBy(e.ppe, ItemKey));
  }

  lemma FieldsUndone(e: SafetyEvent)
    ensures forall i :: 0 <= i < 8 ==> ';' !in Fields(e)[i]
    ensures ValueOf(Fields(e)[0]) == MAPPING_VERSION && ValueOf(Fields(e)[1]) == EventName(e.eventType)
    ensures ValueOf(Fields(e)[2]) == OffsetText(e) && ValueOf(Fields(e)[3]) == ObjectText(e)
    ensures ValueOf(Fields(e)[4]) == RiskName(e.riskLevel) && ValueOf(Fields(e)[5]) == ConfidenceName(e.confidence)
    ensures ValueOf(Fields(e)[6]) == RuleText(e) && ValueOf(Fields(e)[7]) == PpeText(e)
  {
    hide Field, ValueOf, Index, OffsetText, ObjectText, RuleText, PpeText, EventName, RiskName, ConfidenceName;
    TextsHaveNone(e);
    FieldUndone("mapping", MAPPING_VERSION);
    FieldUndone("event", EventName(e.eventType));
    FieldUndone("offset_ms", OffsetText(e));
    FieldUndone("objects", ObjectText(e));
    FieldUndone("risk", RiskName(e.riskLevel));
    FieldUndone("confidence", ConfidenceName(e.confidence));
    FieldUndone("rules", RuleText(e));
    FieldUndone("ppe", PpeText(e));
  }

  /** The parser undoes the printer. */
  lemma ParsePrint(e: SafetyEvent)
    ensures Parse(Print(e)) == Some(Content(e))
  {
    PrintIsJoined(e);
    FieldsUndone(e);
    SplitJoin(Fields(e), ';');
    PairSplits(Decimal(e.startOffsetMs), Decimal(e.endOffsetMs), '-');
    ObjectsUndone(SortBy(e.objects, CategoryKey));
    RulesUndone(SortBy(e.ruleTags, RuleKey));
    PpeUndone(SortBy(e.ppe, ItemKey));
  }

  // ---- the text is a complete invariant ----

  lemma MapInjective<T>(a: seq<T>, b: seq<T>, parts: T -> seq<string>)
    requires forall x, y :: x in a && y in b && parts(x) == parts(y) ==> x == y
    requires Map(a, parts) == Map(b, parts)
    ensures a == b
  {
    assert |Map(a, parts)| == |Map(b, parts)|;
    forall i | 0 <= i < |a| ensures a[i] == b[i] {
      assert Map(a, parts)[i] == Map(b, parts)[i];
    }
  }

  lemma ObjectPartsInjective(x: ObjectCount, y: ObjectCount)
    requires ObjectParts(x) == ObjectParts(y)
    ensures x == y
  {
    assert ObjectParts(x)[0] == ObjectParts(y)[0] && ObjectParts(x)[1] == ObjectParts(y)[1];
    NumberOfDecimal(x.count);
    NumberOfDecimal(y.count);
  }

  lemma RulePartsInjective(x: RuleTag, y: RuleTag)
    requires RuleParts(x) == RuleParts(y)
    ensures x == y
  {
    assert RuleParts(x)[0] == RuleParts(y)[0];
  }

  lemma PpePartsInjective(x: PpeState, y: PpeState)
    requires PpeParts(x) == PpeParts(y)
    ensures x == y
  {
    assert PpeParts(x)[0] == PpeParts(y)[0] && PpeParts(x)[1] == PpeParts(y)[1];
  }

  lemma NamesInjective(a: SafetyEvent, b: SafetyEvent)
    requires EventName(a.eventType) == EventName(b.eventType) && RiskName(a.riskLevel) == RiskName(b.riskLevel)
    requires ConfidenceName(a.confidence) == ConfidenceName(b.confidence)
    ensures a.eventType == b.eventType && a.riskLevel == b.riskLevel && a.confidence == b.confidence
  {
  }

  lemma {:induction false} KeysDistinct<T>(s: seq<T>, key: T -> string)
    requires forall i, j :: 0 <= i < j < |s| ==> key(s[i]) != key(s[j])
    ensures DistinctKeys(s, key)
  {
    if s != [] {
      forall i | 0 <= i < |s[1..]| ensures key(s[1..][i]) != key(s[0]) {
        assert s[1..][i] == s[i + 1];
      }
      forall i, j | 0 <= i < j < |s[1..]| ensures key(s[1..][i]) != key(s[1..][j]) {
        assert s[1..][i] == s[i + 1] && s[1..][j] == s[j + 1];
      }
      KeysDistinct(s[1..], key);
    }
  }

  lemma CategoryNameInjective(a: ObjectCategory, b: ObjectCategory)
    requires CategoryName(a) == CategoryName(b)
    ensures a == b
  {
  }

  lemma ItemNameInjective(a: PpeItem, b: PpeItem)
    requires ItemName(a) == ItemName(b)
    ensures a == b
  {
  }

  lemma ValidKeys(e: SafetyEvent)
    requires Valid(e)
    ensures DistinctKeys(e.objects, CategoryKey) && DistinctKeys(e.ruleTags, RuleKey) && DistinctKeys(e.ppe, ItemKey)
  {
    forall i, j | 0 <= i < j < |e.objects| ensures CategoryKey(e.objects[i]) != CategoryKey(e.objects[j]) {
      if CategoryKey(e.objects[i]) == CategoryKey(e.objects[j]) {
        CategoryNameInjective(e.objects[i].category, e.objects[j].category);
      }
    }
    forall i, j | 0 <= i < j < |e.ruleTags| ensures RuleKey(e.ruleTags[i]) != RuleKey(e.ruleTags[j]) {
      if RuleKey(e.ruleTags[i]) == RuleKey(e.ruleTags[j]) {
        RulePartsInjective(e.ruleTags[i], e.ruleTags[j]);
      }
    }
    forall i, j | 0 <= i < j < |e.ppe| ensures ItemKey(e.ppe[i]) != ItemKey(e.ppe[j]) {
      if ItemKey(e.ppe[i]) == ItemKey(e.ppe[j]) {
        ItemNameInjective(e.ppe[i].item, e.ppe[j].item);
      }
    }
    KeysDistinct(e.objects, CategoryKey);
    KeysDistinct(e.ruleTags, RuleKey);
    KeysDistinct(e.ppe, ItemKey);
  }

  lemma ContentDetermines(a: SafetyEvent, b: SafetyEvent)
    requires Content(a) == Content(b)
    ensures a.eventType == b.eventType && a.startOffsetMs == b.startOffsetMs && a.endOffsetMs == b.endOffsetMs
    ensures a.riskLevel == b.riskLevel && a.confidence == b.confidence
    ensures SortBy(a.objects, CategoryKey) == SortBy(b.objects, CategoryKey)
    ensures SortBy(a.ruleTags, RuleKey) == SortBy(b.ruleTags, RuleKey) && SortBy(a.ppe, ItemKey) == SortBy(b.ppe, ItemKey)
  {
    NamesInjective(a, b);
    assert Content(a).offsets[0] == Content(b).offsets[0] && Content(a).offsets[1] == Content(b).offsets[1];
    NumberOfDecimal(a.startOffsetMs);
    NumberOfDecimal(b.startOffsetMs);
    NumberOfDecimal(a.endOffsetMs);
    NumberOfDecimal(b.endOffsetMs);
    forall x, y | ObjectParts(x) == ObjectParts(y) ensures x == y { ObjectPartsInjective(x, y); }
    forall x, y | RuleParts(x) == RuleParts(y) ensures x == y { RulePartsInjective(x, y); }
    forall x, y | PpeParts(x) == PpeParts(y) ensures x == y { PpePartsInjective(x, y); }
    MapInjective(SortBy(a.objects, CategoryKey), SortBy(b.objects, CategoryKey), ObjectParts);
    MapInjective(SortBy(a.ruleTags, RuleKey), SortBy(b.ruleTags, RuleKey), RuleParts);
    MapInjective(SortBy(a.ppe, ItemKey), SortBy(b.ppe, ItemKey), PpeParts);
  }

  /** Two valid events print the same text exactly when they differ at most in the order of their lists. */
  lemma SameTextIff(a: SafetyEvent, b: SafetyEvent)
    requires Valid(a) && Valid(b)
    ensures Print(a) == Print(b) <==> SameContent(a, b)
  {
    ValidKeys(a);
    ValidKeys(b);
    SortedAlikeIff(a.objects, b.objects, CategoryKey);
    SortedAlikeIff(a.ruleTags, b.ruleTags, RuleKey);
    SortedAlikeIff(a.ppe, b.ppe, ItemKey);
    if Print(a) == Print(b) {
      ParsePrint(a);
      ParsePrint(b);
      ContentDetermines(a, b);
    }
  }

  // ---- one text, letter by letter ----

  const HelmetOff :=
    SafetyEvent(PpeMissing, 900, 2500, [ObjectCount(Person, 2), ObjectCount(Forklift, 1)], HighRisk, MediumConfidence,
                [RestrictedZone, PpeHelmet],
                [PpeState(SafetyVestItem, Present), PpeState(HelmetItem, Missing), PpeState(RespiratorItem, Unknown)])

  lemma TwoSorted<T>(x: T, y: T, key: T -> string)
    requires Before(key(y), key(x))
    ensures SortBy([x, y], key) == [y, x]
  {
    hide Before;
    assert [x, y][1..] == [y] && [y][1..] == [];
    assert SortBy([y], key) == Insert(y, [], key) == [y];
    assert Insert(x, [], key) == [x];
  }

  lemma ThreeSorted<T>(x: T, y: T, z: T, key: T -> string)
    requires Before(key(y), key(z)) && Before(key(y), key(x)) && Before(key(z), key(x)) && !Before(key(z), key(y))
    ensures SortBy([x, y, z], key) == [y, z, x]
  {
    hide Before;
    assert [x, y, z][1..] == [y, z] && [y, z][1..] == [z] && [z][1..] == [];
    assert SortBy([z], key) == Insert(z, [], key) == [z];
    assert SortBy([y, z], key) == Insert(y, [z], key) == [y, z];
    assert Insert(x, [z], key) == [z] + Insert(x, [], key) == [z, x];
    assert Insert(x, [y, z], key) == [y] + Insert(x, [z], key);
  }

  lemma JoinsTwo(a: string, b: string)
    ensures Join([a, b], ',') == a + "," + b
  {
    assert [a, b][1..] == [b] && [','] == ",";
  }

  lemma HelmetOffOffsets()
    ensures OffsetText(HelmetOff) == "900" + "-" + "2500"
  {
    assert Decimal(9) == "9" && Decimal(90) == "90" && Decimal(900) == "900";
    assert Decimal(2) == "2" && Decimal(25) == "25" && Decimal(250) == "250" && Decimal(2500) == "2500";
  }

  lemma HelmetOffObjects()
    ensures ObjectText(HelmetOff) == "forklift:1" + "," + "person:2"
  {
    var x, y := ObjectCount(Person, 2), ObjectCount(Forklift, 1);
    TwoSorted(x, y, CategoryKey);
    assert Decimal(1) == "1" && Decimal(2) == "2";
    assert ObjectToken(y) == "forklift:1" && ObjectToken(x) == "person:2";
    assert Map([y, x], ObjectToken) == [ObjectToken(y), ObjectToken(x)];
    JoinsTwo(ObjectToken(y), ObjectToken(x));
  }

  lemma HelmetOffRules()
    ensures RuleText(HelmetOff) == "ppe_helmet" + "," + "restricted_zone"
  {
    TwoSorted(RestrictedZone, PpeHelmet, RuleKey);
    assert Map([PpeHelmet, RestrictedZone], RuleKey) == [RuleKey(PpeHelmet), RuleKey(RestrictedZone)];
    JoinsTwo(RuleKey(PpeHelmet), RuleKey(RestrictedZone));
  }

  lemma HelmetOffTokens()
    ensures PpeToken(PpeState(HelmetItem, Missing)) == "helmet:missing"
    ensures PpeToken(PpeState(RespiratorItem, Unknown)) == "respirator:unknown"
    ensures PpeToken(PpeState(SafetyVestItem, Present)) == "safety_vest:present"
  {
  }

  lemma HelmetOffPpe()
    ensures PpeText(HelmetOff) == "helmet:missing" + "," + ("respirator:unknown" + "," + "safety_vest:present")
  {
    var x, y, z := PpeState(SafetyVestItem, Present), PpeState(HelmetItem, Missing), PpeState(RespiratorItem, Unknown);
    ThreeSorted(x, y, z, ItemKey);
    HelmetOffTokens();
    var tokens := [PpeToken(y), PpeToken(z), PpeToken(x)];
    assert Map([y, z, x], PpeToken) == tokens;
    assert tokens[1..] == [PpeToken(z), PpeToken(x)];
    JoinsTwo(PpeToken(z), PpeToken(x));
  }

  /** The text of one event letter by letter, with its lists out of order and every status of protective equipment. */
  lemma HelmetOffText()
    ensures Valid(HelmetOff)
    ensures Print(HelmetOff)
      == "mapping=" + "safety-event-map-v1" + ";"
         + ("event=" + "ppe_missing" + ";"
         + ("offset_ms=" + ("900" + "-" + "2500") + ";"
         + ("objects=" + ("forklift:1" + "," + "person:2") + ";"
         + ("risk=" + "high" + ";"
         + ("confidence=" + "medium" + ";"
         + ("rules=" + ("ppe_helmet" + "," + "restricted_zone") + ";"
         + ("ppe=" + ("helmet:missing" + "," + ("respirator:unknown" + "," + "safety_vest:present")))))))))
  {
    hide Decimal, SortBy, Join, Map, ObjectText, RuleText, PpeText, OffsetText;
    HelmetOffObjects();
    HelmetOffRules();
    HelmetOffPpe();
    HelmetOffOffsets();
    FieldNames();
  }

  lemma FieldNames()
    ensures "mapping" + "=" == "mapping=" && "event" + "=" == "event=" && "offset_ms" + "=" == "offset_ms="
    ensures "objects" + "=" == "objects=" && "risk" + "=" == "risk=" && "confidence" + "=" == "confidence="
    ensures "rules" + "=" == "rules=" && "ppe" + "=" == "ppe="
  {
  }
}
