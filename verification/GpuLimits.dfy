// Resource names and the two readers of the gpu.limits setting ("name=int,name=int,...").
module GpuLimits {
  import opened Wrappers

  // ---- the string operations used, on ASCII ----

  function ToUpper(c: char): char {
    if 'a' <= c <= 'z' then (c as int - 'a' as int + 'A' as int) as char else c
  }

  function NormalizeChar(c: char): char {
    if c == '-' || c == '.' then '_' else ToUpper(c)
  }

  /** "-" and "." become "_", letters become capitals. */
  function TransformResourceName(s: string): (r: string)
    ensures |r| == |s|
    ensures forall i | 0 <= i < |s| :: r[i] == NormalizeChar(s[i])
  {
    seq(|s|, i requires 0 <= i < |s| => NormalizeChar(s[i]))
  }

  /** Normalising a normalised name changes nothing. */
  lemma {:induction false} TransformIsIdempotent(s: string)
    ensures TransformResourceName(TransformResourceName(s)) == TransformResourceName(s)
  {
  }

  predicate IsPunctuation(c: char) {
    c == '-' || c == '.' || c == '_'
  }

  /** The two characters are the same but for case. */
  predicate SameLetter(c: char, d: char) {
    c == d || ('a' <= c <= 'z' && d as int == c as int - 32) || ('a' <= d <= 'z' && c as int == d as int - 32)
  }

  /** Names are the same exactly if they differ only in case and in which of "-", "." and "_" they use. */
  lemma {:induction false} SameNameIff(s: string, t: string)
    ensures TransformResourceName(s) == TransformResourceName(t) <==>
      |s| == |t| && forall i | 0 <= i < |s| :: SameLetter(s[i], t[i]) || (IsPunctuation(s[i]) && IsPunctuation(t[i]))
  {
    var r, u := TransformResourceName(s), TransformResourceName(t);
    if r == u {
      forall i | 0 <= i < |s| ensures SameLetter(s[i], t[i]) || (IsPunctuation(s[i]) && IsPunctuation(t[i])) {
        assert r[i] == u[i];
      }
    }
  }

  /** A normalised name has no small letters, "-" or "."; so a name is changed exactly if it has any. */
  lemma {:induction false} UnchangedIff(s: string)
    ensures TransformResourceName(s) == s <==> forall c | c in s :: !('a' <= c <= 'z') && c != '-' && c != '.'
  {
    var r := TransformResourceName(s);
    if r == s {
      forall c | c in s ensures !('a' <= c <= 'z') && c != '-' && c != '.' {
        var i :| 0 <= i < |s| && s[i] == c;
        assert r[i] == s[i];
      }
    } else {
      var i :| 0 <= i < |s| && r[i] != s[i];
      assert s[i] in s;
    }
  }

  /** The first part of `strings.Split(s, sep)`. */
  function Head(s: string, sep: char): (h: string)
    ensures sep !in h && h <= s
    ensures h == s || (|h| < |s| && s[|h|] == sep)
  {
    if s == [] || s[0] == sep then [] else [s[0]] + Head(s[1..], sep)
  }

  function Split(s: string, sep: char): (parts: seq<string>)
    ensures parts != [] && parts[0] == Head(s, sep)
    ensures |parts| == 1 <==> sep !in s
    decreases |s|
  {
    var h := Head(s, sep);
    if h == s then [s] else [h] + Split(s[|h| + 1..], sep)
  }

  function Join(parts: seq<string>, sep: char): string {
    if parts == [] then [] else if |parts| == 1 then parts[0] else parts[0] + [sep] + Join(parts[1..], sep)
  }

  predicate IsDigit(c: char) {
    '0' <= c <= '9'
  }

  function DigitValue(c: char): nat
    requires IsDigit(c)
  {
    c as int - '0' as int
  }

  function Digits(s: string): Option<nat> {
    if s == [] then Some(0)
    else if !IsDigit(s[|s| - 1]) then None
    else match Digits(s[..|s| - 1])
      case None => None
      case Some(n) => Some(10 * n + DigitValue(s[|s| - 1]))
  }

  const MAX_INT64: int := 0x7FFF_FFFF_FFFF_FFFF

  /** `strconv.ParseInt(s, 10, 0)`: an optional sign, decimal digits, and a 64-bit range. */
  function ParseInt(s: string): Option<int> {
    var negative := s != [] && s[0] == '-';
    var body := if s != [] && (s[0] == '-' || s[0] == '+') then s[1..] else s;
    if body == [] then None
    else match Digits(body)
      case None => None
      case Some(n) =>
        var v := (if negative then -1 else 1) * n;
        if -MAX_INT64 - 1 <= v <= MAX_INT64 then Some(v) else None
  }

  // ---- entries of the setting ----

  /** What both readers need of an entry not to index out of range: an "=" in it. */
  predicate HasValue(l: string) {
    '=' in l
  }

  function NameOf(l: string): string {
    TransformResourceName(Split(l, '=')[0])
  }

  function ValueOf(l: string): Option<int>
    requires HasValue(l)
  {
    ParseInt(Split(l, '=')[1])
  }

  /** The first entry with a given normalised name. */
  function FirstNamed(ls: seq<string>, name: string): (r: Option<string>)
    ensures r.None? <==> forall l | l in ls :: NameOf(l) != name
    ensures r.Some? ==> r.value in ls && NameOf(r.value) == name
  {
    if ls == [] then None
    else if NameOf(ls[0]) == name then Some(ls[0])
    else FirstNamed(ls[1..], name)
  }

  /** The last entry with a given normalised name. */
  function LastNamed(ls: seq<string>, name: string): (r: Option<string>)
    ensures r.None? <==> forall l | l in ls :: NameOf(l) != name
    ensures r.Some? ==> r.value in ls && NameOf(r.value) == name
  {
    if ls == [] then None
    else if NameOf(ls[|ls| - 1]) == name then Some(ls[|ls| - 1])
    else assert ls == ls[..|ls| - 1] + [ls[|ls| - 1]]; LastNamed(ls[..|ls| - 1], name)
  }

  /** The entry parses. */
  predicate Parses(l: string) {
    HasValue(l) && ValueOf(l).Some?
  }

  /** The scan indexes only the entry it matches. */
  predicate ScanSafe(setting: string, gpuType: string) {
    var first := FirstNamed(Split(setting, ','), TransformResourceName(gpuType));
    first.Some? ==> HasValue(first.value)
  }

  /** Reading the map indexes every entry up to the first that does not parse. */
  predicate MapSafe(setting: string) {
    var ls := Split(setting, ',');
    forall i | 0 <= i < |ls| && (forall j | 0 <= j < i :: Parses(ls[j])) :: HasValue(ls[i])
  }

  /** What the scan of getGpuLimitByType yields. */
  function FirstLimit(setting: string, gpuType: string): int
    requires ScanSafe(setting, gpuType)
  {
    var first := FirstNamed(Split(setting, ','), TransformResourceName(gpuType));
    if first.Some? && ValueOf(first.value).Some? then ValueOf(first.value).value else 0
  }

  predicate AllParse(ls: seq<string>) {
    forall l | l in ls :: Parses(l)
  }

  /** The map built from entries read in order: a later entry overwrites an earlier one. */
  function MapOf(ls: seq<string>): map<string, int>
    requires AllParse(ls)
  {
    if ls == [] then map[]
    else
      var l := ls[|ls| - 1];
      assert l in ls;
      MapOf(ls[..|ls| - 1])[NameOf(l) := ValueOf(l).value]
  }

  /** The map holds, for every name, the value of the last entry that has it. */
  lemma {:induction false} MapHoldsLast(ls: seq<string>, name: string)
    requires AllParse(ls)
    ensures var last := LastNamed(ls, name);
      (name in MapOf(ls) <==> last.Some?) && (last.Some? ==> ValueOf(last.value) == Some(MapOf(ls)[name]))
  {
    if ls != [] && NameOf(ls[|ls| - 1]) != name { MapHoldsLast(ls[..|ls| - 1], name); }
  }

  /** The limit of the first entry with this name; 0 if there is none or its value does not parse. */
  method GetGpuLimitByType(setting: string, gpuType: string) returns (limit: int)
    requires ScanSafe(setting, gpuType)
    ensures limit == FirstLimit(setting, gpuType)
  {
    limit := 0;
    var allLimits := Split(setting, ',');
    var i := 0;
    while i < |allLimits|
      invariant 0 <= i <= |allLimits| && limit == 0
      invariant FirstNamed(allLimits, TransformResourceName(gpuType))
        == FirstNamed(allLimits[i..], TransformResourceName(gpuType))
    {
      var l := allLimits[i];
      if TransformResourceName(Split(l, '=')[0]) == TransformResourceName(gpuType) {
        var lim := ParseInt(Split(l, '=')[1]);
        if lim.Some? { limit := lim.value; }
        break;
      }
      i := i + 1;
    }
  }

  lemma {:induction false} MapOfGrows(ls: seq<string>, i: nat)
    requires i < |ls| && AllParse(ls[..i]) && Parses(ls[i])
    ensures AllParse(ls[..i + 1])
    ensures MapOf(ls[..i + 1]) == MapOf(ls[..i])[NameOf(ls[i]) := ValueOf(ls[i]).value]
  {
    var longer := ls[..i + 1];
    assert longer[..i] == ls[..i] && longer == ls[..i] + [ls[i]];
  }

  /** All limits by normalised name, or an error if any value does not parse. */
  method GetGpuMapFromConfig(setting: string) returns (r: Option<map<string, int>>)
    requires MapSafe(setting)
    ensures r.None? <==> !AllParse(Split(setting, ','))
    ensures r.Some? ==> r.value == MapOf(Split(setting, ','))
  {
    var gpuMap: map<string, int> := map[];
    var all := Split(setting, ',');
    for i := 0 to |all|
      invariant AllParse(all[..i]) && gpuMap == MapOf(all[..i])
    {
      forall j | 0 <= j < i ensures Parses(all[j]) { assert all[..i][j] in all[..i]; }
      var gpuType := Split(all[i], '=')[0];
      var limit := ParseInt(Split(all[i], '=')[1]);
      if limit.None? {
        assert all[i] in all;
        return None;
      }
      MapOfGrows(all, i);
      gpuMap := gpuMap[TransformResourceName(gpuType) := limit.value];
    }
    assert all[..|all|] == all;
    return Some(gpuMap);
  }

  // ---- the two readers agree ----

  function Lookup(m: map<string, int>, gpuType: string): int {
    var name := TransformResourceName(gpuType);
    if name in m then m[name] else 0
  }

  lemma {:induction false} FirstAndLast(ls: seq<string>, name: string)
    ensures FirstNamed(ls, name).Some? <==> LastNamed(ls, name).Some?
  {
  }

  /** Whenever the whole setting parses, the scan and the map agree on a type exactly when the first and the last entry
      of that normalised name give the same limit. */
  lemma {:induction false} ReadersAgreeIff(setting: string, gpuType: string)
    requires AllParse(Split(setting, ','))
    ensures var ls, name := Split(setting, ','), TransformResourceName(gpuType);
      FirstLimit(setting, gpuType) == Lookup(MapOf(ls), gpuType)
      <==> (FirstNamed(ls, name).Some? ==> ValueOf(FirstNamed(ls, name).value) == ValueOf(LastNamed(ls, name).value))
  {
    var ls, name := Split(setting, ','), TransformResourceName(gpuType);
    FirstAndLast(ls, name);
    MapHoldsLast(ls, name);
  }

  lemma {:induction false} FirstAndLastOfTwo(p: string, q: string, name: string)
    requires Parses(p) && Parses(q) && NameOf(p) == name && NameOf(q) == name
    ensures var ls := [p, q];
      AllParse(ls) && FirstNamed(ls, name) == Some(p) && name in MapOf(ls) && ValueOf(q) == Some(MapOf(ls)[name])
  {
    var ls := [p, q];
    MapHoldsLast(ls, name);
    assert LastNamed(ls, name) == Some(ls[1]) && FirstNamed(ls, name) == Some(ls[0]);
  }

  /** What the readers make of a setting, given its entries. */
  lemma {:induction false} ReadParts(setting: string, ls: seq<string>, gpuType: string, p: string, v: int)
    requires Split(setting, ',') == ls && AllParse(ls) && FirstNamed(ls, TransformResourceName(gpuType)) == Some(p)
    requires HasValue(p) && ValueOf(p) == Some(v)
    ensures ScanSafe(setting, gpuType) && FirstLimit(setting, gpuType) == v
  {
  }

  /** On a setting that names a type twice, the scan takes the first limit and the map the second. */
  lemma {:induction false} NamedTwice(a: Limit, b: Limit, gpuType: string) returns (setting: string)
    requires WellFormed(a) && WellFormed(b)
    requires TransformResourceName(a.name) == TransformResourceName(b.name) == TransformResourceName(gpuType)
    ensures setting == Write(a) + [','] + Write(b) && AllParse(Split(setting, ',')) && ScanSafe(setting, gpuType)
    ensures FirstLimit(setting, gpuType) == a.value && Lookup(MapOf(Split(setting, ',')), gpuType) == b.value
  {
    var ls, name := [Write(a), Write(b)], TransformResourceName(gpuType);
    WrittenReads(a);
    WrittenReads(b);
    setting := JoinTwo(Write(a), Write(b));
    FirstAndLastOfTwo(Write(a), Write(b), name);
    ReadParts(setting, ls, gpuType, Write(a), a.value);
  }

  lemma {:induction false} JoinTwo(p: string, q: string) returns (setting: string)
    requires ',' !in p && ',' !in q
    ensures setting == p + [','] + q && Split(setting, ',') == [p, q]
  {
    assert [p, q][1..] == [q];
    setting := Join([p, q], ',');
    SplitJoin([p, q], ',');
  }

  lemma {:induction false} DigitLimit(name: string, c: char) returns (l: Limit)
    requires '=' !in name && ',' !in name && IsDigit(c)
    ensures WellFormed(l) && l.name == name && Write(l) == name + ['=', c] && l.value == DigitValue(c)
  {
    OneDigit(c);
    l := Limit(name, [c], DigitValue(c));
    assert name + ['='] + [c] == name + ['=', c];
  }

  lemma {:induction false} TwiceWithDigits(name: string, c: char, again: string, d: char) returns (setting: string)
    requires '=' !in name && ',' !in name && '=' !in again && ',' !in again && IsDigit(c) && IsDigit(d)
    requires TransformResourceName(name) == TransformResourceName(again)
    ensures setting == name + ['=', c, ','] + again + ['=', d] && AllParse(Split(setting, ','))
    ensures ScanSafe(setting, name)
    ensures FirstLimit(setting, name) == DigitValue(c) && Lookup(MapOf(Split(setting, ',')), name) == DigitValue(d)
  {
    var a := DigitLimit(name, c);
    var b := DigitLimit(again, d);
    setting := NamedTwice(a, b, name);
    assert name + ['=', c] + [','] == name + ['=', c, ','];
  }

  lemma {:induction false} TwoSpellings() returns (name: string, again: string)
    ensures name == "K80" && again == "k80" && TransformResourceName(name) == TransformResourceName(again)
    ensures '=' !in name && ',' !in name && '=' !in again && ',' !in again
  {
    name, again := "K80", "k80";
  }

  lemma {:induction false} SettingText(name: string, again: string, setting: string)
    requires name == "K80" && again == "k80" && setting == name + ['=', '1', ','] + again + ['=', '2']
    ensures setting == "K80=1,k80=2"
  {
  }

  /** For example, the limit of K80s is 1 to one reader and 2 to the other. */
  lemma {:induction false} RepeatedNameDisagrees() returns (setting: string, gpuType: string)
    ensures setting == "K80=1,k80=2" && gpuType == "K80" && AllParse(Split(setting, ',')) && ScanSafe(setting, gpuType)
    ensures FirstLimit(setting, gpuType) == 1 && Lookup(MapOf(Split(setting, ',')), gpuType) == 2
  {
    var again;
    gpuType, again := TwoSpellings();
    setting := TwiceWithDigits(gpuType, '1', again, '2');
    SettingText(gpuType, again, setting);
  }

  lemma {:induction false} OneDigit(c: char)
    requires IsDigit(c)
    ensures ParseInt([c]) == Some(DigitValue(c))
  {
    assert [c][..0] == [];
    assert Digits([c]) == Some(DigitValue(c));
  }

  /** One entry of a setting as an operator writes it. */
  datatype Limit = Limit(name: string, text: string, value: int)

  predicate WellFormed(l: Limit) {
    '=' !in l.name && ',' !in l.name && ',' !in l.text && '=' !in l.text && ParseInt(l.text) == Some(l.value)
  }

  function Write(l: Limit): string {
    l.name + ['='] + l.text
  }

  function WriteAll(limits: seq<Limit>): seq<string> {
    seq(|limits|, i requires 0 <= i < |limits| => Write(limits[i]))
  }

  /** Splitting what was joined gives the parts back. */
  lemma {:induction false} SplitJoin(parts: seq<string>, sep: char)
    requires parts != [] && forall p | p in parts :: sep !in p
    ensures Split(Join(parts, sep), sep) == parts
    decreases |parts|
  {
    if |parts| == 1 {
      HeadOfAll(parts[0], sep);
      assert parts == [parts[0]];
    } else {
      SplitJoin(parts[1..], sep);
      SplitFirst(parts[0], Join(parts[1..], sep), sep);
      assert parts == [parts[0]] + parts[1..];
    }
  }

  lemma {:induction false} SplitFirst(first: string, rest: string, sep: char)
    requires sep !in first
    ensures Split(first + [sep] + rest, sep) == [first] + Split(rest, sep)
  {
    HeadBeforeSep(first, rest, sep);
    assert (first + [sep] + rest)[|first| + 1..] == rest;
  }

  lemma {:induction false} HeadOfAll(s: string, sep: char)
    requires sep !in s
    ensures Head(s, sep) == s
  {
  }

  lemma {:induction false} HeadBeforeSep(a: string, b: string, sep: char)
    requires sep !in a
    ensures Head(a + [sep] + b, sep) == a
    decreases |a|
  {
    var s := a + [sep] + b;
    if a != [] {
      assert s[1..] == a[1..] + [sep] + b;
      HeadBeforeSep(a[1..], b, sep);
    }
  }

  /** An entry as written reads back. */
  lemma {:induction false} WrittenReads(l: Limit)
    requires WellFormed(l)
    ensures HasValue(Write(l)) && NameOf(Write(l)) == TransformResourceName(l.name)
    ensures ValueOf(Write(l)) == Some(l.value)
    ensures ',' !in Write(l)
  {
  }

  /** What follows a second "=" in an entry is ignored. */
  lemma {:induction false} RestIgnored(name: string, text: string, rest: string)
    requires '=' !in name && '=' !in text
    ensures var l := name + ['='] + (text + ['='] + rest);
      HasValue(l) && NameOf(l) == TransformResourceName(name) && ValueOf(l) == ParseInt(text)
  {
    SplitFirst(name, text + ['='] + rest, '=');
    SplitFirst(text, rest, '=');
    HeadBeforeSep(name, text + ['='] + rest, '=');
  }

  /** Main result: for every setting of well-formed entries whose normalised names are distinct, both readers give each
      listed type its own limit, whatever the case and punctuation it is asked for, and 0 to every other type. */
  lemma {:induction false} ReadersAgree(limits: seq<Limit>, gpuType: string)
    requires limits != [] && DistinctLimits(limits)
    ensures var setting := Join(WriteAll(limits), ',');
      && AllParse(Split(setting, ',')) && ScanSafe(setting, gpuType) && MapSafe(setting)
      && FirstLimit(setting, gpuType) == Lookup(MapOf(Split(setting, ',')), gpuType) == LimitFor(limits, gpuType)
  {
    WrittenAll(limits);
    SplitJoin(WriteAll(limits), ',');
    PartsAgree(limits, gpuType);
    AllSafe(Join(WriteAll(limits), ','), gpuType);
  }

  lemma {:induction false} AllSafe(setting: string, gpuType: string)
    requires AllParse(Split(setting, ','))
    ensures ScanSafe(setting, gpuType) && MapSafe(setting)
  {
  }

  /** Main result, for the entries of the setting. */
  lemma {:induction false} PartsAgree(limits: seq<Limit>, gpuType: string)
    requires DistinctLimits(limits)
    ensures var ls, name := WriteAll(limits), TransformResourceName(gpuType);
      var first := FirstNamed(ls, name);
      && AllParse(ls)
      && (first.Some? ==> HasValue(first.value) && ValueOf(first.value) == Some(LimitFor(limits, gpuType)))
      && (first.None? ==> LimitFor(limits, gpuType) == 0)
      && Lookup(MapOf(ls), gpuType) == LimitFor(limits, gpuType)
  {
    var ls, name := WriteAll(limits), TransformResourceName(gpuType);
    WrittenAll(limits);
    FirstAndLast(ls, name);
    MapHoldsLast(ls, name);
    var first, last := FirstNamed(ls, name), LastNamed(ls, name);
    if first.Some? {
      UniqueName(limits, name, first.value, last.value);
      LimitOfNamed(limits, gpuType, first.value);
    } else {
      NoLimit(limits, gpuType);
    }
  }

  predicate DistinctLimits(limits: seq<Limit>) {
    && (forall l | l in limits :: WellFormed(l))
    && forall i, j | 0 <= i < j < |limits| ::
         TransformResourceName(limits[i].name) != TransformResourceName(limits[j].name)
  }

  /** The limit an operator means for a type. */
  function LimitFor(limits: seq<Limit>, gpuType: string): int {
    if limits == [] then 0
    else if TransformResourceName(limits[0].name) == TransformResourceName(gpuType) then limits[0].value
    else LimitFor(limits[1..], gpuType)
  }

  lemma {:induction false} LimitForAt(limits: seq<Limit>, gpuType: string, i: nat)
    requires i < |limits| && TransformResourceName(limits[i].name) == TransformResourceName(gpuType)
    requires forall j | 0 <= j < i :: TransformResourceName(limits[j].name) != TransformResourceName(gpuType)
    ensures LimitFor(limits, gpuType) == limits[i].value
    decreases i
  {
    if i > 0 {
      assert forall j | 0 <= j < i - 1 :: limits[1..][j] == limits[j + 1];
      LimitForAt(limits[1..], gpuType, i - 1);
    }
  }

  lemma {:induction false} LimitOfNamed(limits: seq<Limit>, gpuType: string, p: string)
    requires DistinctLimits(limits) && p in WriteAll(limits) && NameOf(p) == TransformResourceName(gpuType)
    ensures HasValue(p) && ValueOf(p) == Some(LimitFor(limits, gpuType))
  {
    var i :| 0 <= i < |limits| && WriteAll(limits)[i] == p;
    assert limits[i] in limits;
    WrittenReads(limits[i]);
    LimitForAt(limits, gpuType, i);
  }

  lemma {:induction false} NoLimit(limits: seq<Limit>, gpuType: string)
    requires forall l | l in limits :: WellFormed(l)
    requires forall p | p in WriteAll(limits) :: NameOf(p) != TransformResourceName(gpuType)
    ensures LimitFor(limits, gpuType) == 0
    decreases |limits|
  {
    if limits != [] {
      assert limits[0] in limits && WriteAll(limits)[0] in WriteAll(limits);
      WrittenReads(limits[0]);
      forall p | p in WriteAll(limits[1..]) ensures p in WriteAll(limits) {
        var i :| 0 <= i < |limits[1..]| && WriteAll(limits[1..])[i] == p;
        assert WriteAll(limits)[i + 1] == p;
      }
      NoLimit(limits[1..], gpuType);
    }
  }

  lemma {:induction false} NamedIsLimit(limits: seq<Limit>, p: string)
    requires (forall l | l in limits :: WellFormed(l)) && p in WriteAll(limits)
    ensures ',' !in p && Parses(p)
  {
    var i :| 0 <= i < |limits| && WriteAll(limits)[i] == p;
    WrittenReads(limits[i]);
    assert limits[i] in limits;
  }

  lemma {:induction false} WrittenAll(limits: seq<Limit>)
    requires forall l | l in limits :: WellFormed(l)
    ensures forall p | p in WriteAll(limits) :: ',' !in p && Parses(p)
  {
    forall p | p in WriteAll(limits) ensures ',' !in p && Parses(p) { NamedIsLimit(limits, p); }
  }

  lemma {:induction false} UniqueName(limits: seq<Limit>, name: string, p: string, q: string)
    requires DistinctLimits(limits)
    requires p in WriteAll(limits) && q in WriteAll(limits) && NameOf(p) == name && NameOf(q) == name
    ensures p == q
  {
    var i :| 0 <= i < |limits| && WriteAll(limits)[i] == p;
    var j :| 0 <= j < |limits| && WriteAll(limits)[j] == q;
    WrittenReads(limits[i]);
    WrittenReads(limits[j]);
    assert i == j;
  }
}
