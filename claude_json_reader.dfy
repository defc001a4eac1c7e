/** Shared/Services/ClaudeJsonReader.swift: the per-model token totals read from
    `~/.claude.json`, keyed by a short display name of the model. */
module ClaudeJsonReader {
  import opened Wrappers
  import opened Json
  import opened Decimal
  import opened Strings

  datatype ModelTokenStats = ModelTokenStats(modelName: string, totalTokens: int)

  /** A "-"-separated part that `shortModelName` drops: eight characters that
      `Int(_:)` accepts, i.e. a date stamp such as "20251101". */
  predicate IsDateStamp(part: string) { |part| == 8 && ParseInt(part).Some? }

  /** `.filter { !($0.count == 8 && Int($0) != nil) }`. */
  function DropDateStamps(parts: seq<string>): (r: seq<string>)
    ensures forall i :: 0 <= i < |r| ==> !IsDateStamp(r[i]) && r[i] in parts
  {
    if parts == [] then []
    else if IsDateStamp(parts[0]) then DropDateStamps(parts[1..])
    else [parts[0]] + DropDateStamps(parts[1..])
  }

  lemma {:induction false} DropDateStampsAppend(a: seq<string>, b: seq<string>)
    ensures DropDateStamps(a + b) == DropDateStamps(a) + DropDateStamps(b)
  {
    if a == [] {
      assert a + b == b;
    } else {
      assert (a + b)[0] == a[0] && (a + b)[1..] == a[1..] + b;
      DropDateStampsAppend(a[1..], b);
    }
  }

  /** The family of a lower-cased id, checked in the order opus, sonnet, haiku. */
  function Family(lower: string): Option<string> {
    if Contains(lower, "opus") then Some("Opus")
    else if Contains(lower, "sonnet") then Some("Sonnet")
    else if Contains(lower, "haiku") then Some("Haiku")
    else None
  }

  /** `shortModelName(_:)`: an id outside the three families is returned as it
      is; otherwise the family name followed by the version, which is the
      "-"-parts after the first two, date stamps removed, joined by ".". */
  function ShortModelName(id: string): (r: string)
    ensures Family(Lowercase(id)).None? ==> r == id
    ensures Family(Lowercase(id)).Some? ==> HasPrefix(r, Family(Lowercase(id)).value)
    ensures Contains(Lowercase(id), "opus") ==> HasPrefix(r, "Opus")
    ensures !Contains(Lowercase(id), "opus") && Contains(Lowercase(id), "sonnet") ==> HasPrefix(r, "Sonnet")
    ensures !Contains(Lowercase(id), "opus") && !Contains(Lowercase(id), "sonnet") && Contains(Lowercase(id), "haiku") ==> HasPrefix(r, "Haiku")
  {
    var lower := Lowercase(id);
    match Family(lower)
    case None => id
    case Some(displayName) =>
      var parts := Components(lower, '-');
      var version := Join(DropDateStamps(if |parts| >= 2 then parts[2..] else []), ".");
      if version == "" then displayName else displayName + " " + version
  }

  /** A character that occurs in no family name. */
  predicate OutsideFamilyNames(c: char) { c == '-' || IsDigit(c) }

  lemma {:induction false} ContainsAppendOutside(s: string, t: string, sub: string)
    requires |sub| > 0 && forall i :: 0 <= i < |t| ==> OutsideFamilyNames(t[i])
    requires forall i :: 0 <= i < |sub| ==> !OutsideFamilyNames(sub[i])
    ensures Contains(s + t, sub) <==> Contains(s, sub)
    decreases |s|
  {
    if s == [] {
      assert s + t == t;
      ContainsNone(t, sub);
    } else {
      assert (s + t)[1..] == s[1..] + t;
      ContainsAppendOutside(s[1..], t, sub);
      if |sub| <= |s| {
        assert (s + t)[..|sub|] == s[..|sub|];
      } else if |sub| <= |s + t| {
        assert (s + t)[..|sub|][|s|] == t[0];
        assert (s + t)[..|sub|] != sub;
      }
    }
  }

  lemma {:induction false} ContainsNone(t: string, sub: string)
    requires |sub| > 0 && forall i :: 0 <= i < |t| ==> OutsideFamilyNames(t[i])
    requires forall i :: 0 <= i < |sub| ==> !OutsideFamilyNames(sub[i])
    ensures !Contains(t, sub)
    decreases |t|
  {
    if t != [] {
      assert !HasPrefix(t, sub) by {
        if |sub| <= |t| { assert t[..|sub|][0] == t[0]; }
      }
      ContainsNone(t[1..], sub);
    }
  }

  lemma DatedLowercase(base: string, date: string)
    requires AllDigits(date)
    ensures Lowercase(base + "-" + date) == Lowercase(base) + "-" + date
  {
  }

  lemma DatedFamily(lb: string, date: string)
    requires AllDigits(date)
    ensures Family(lb + "-" + date) == Family(lb)
  {
    var tail := "-" + date;
    assert lb + "-" + date == lb + tail;
    assert forall i :: 0 <= i < |tail| ==> OutsideFamilyNames(tail[i]) by {
      forall i | 0 <= i < |tail| ensures OutsideFamilyNames(tail[i]) {
        if i > 0 { assert tail[i] == date[i - 1]; }
      }
    }
    ContainsAppendOutside(lb, tail, "opus");
    ContainsAppendOutside(lb, tail, "sonnet");
    ContainsAppendOutside(lb, tail, "haiku");
  }

  /** The version parts are the same with or without a trailing date stamp. */
  lemma DatedVersion(lb: string, date: string)
    requires |date| == 8 && AllDigits(date)
    ensures var parts := Components(lb, '-');
            var parts' := Components(lb + "-" + date, '-');
            DropDateStamps(if |parts'| >= 2 then parts'[2..] else []) ==
            DropDateStamps(if |parts| >= 2 then parts[2..] else [])
  {
    assert '-' !in date;
    ComponentsAppend(lb, '-', date);
    var parts := Components(lb, '-');
    assert lb + ['-'] + date == lb + "-" + date;
    ShortDigitsParse(date);
    assert DropDateStamps([date]) == [];
    if |parts| >= 2 {
      assert (parts + [date])[2..] == parts[2..] + [date];
      DropDateStampsAppend(parts[2..], [date]);
    } else {
      assert (parts + [date])[2..] == [];
    }
  }

  /** A date-stamped id and the same id without the stamp have the same short
      name, so `readModelStats` adds their tokens up under one name. */
  lemma DatedIdAggregates(base: string, date: string)
    requires Family(Lowercase(base)).Some?
    requires |date| == 8 && AllDigits(date)
    ensures ShortModelName(base + "-" + date) == ShortModelName(base)
  {
    DatedLowercase(base, date);
    DatedFamily(Lowercase(base), date);
    DatedVersion(Lowercase(base), date);
  }

  /** An id from another family keeps its full name. */
  lemma UnknownFamilyKeepsId(id: string)
    requires !Contains(Lowercase(id), "opus") && !Contains(Lowercase(id), "sonnet") && !Contains(Lowercase(id), "haiku")
    ensures ShortModelName(id) == id
  {
  }

  /** Every character of a substring occurs in the string. */
  lemma {:induction false} ContainedChars(s: string, sub: string, j: int)
    requires Contains(s, sub) && 0 <= j < |sub|
    ensures sub[j] in s
    decreases |s|
  {
    if HasPrefix(s, sub) {
      assert s[j] == sub[j];
    } else {
      ContainedChars(s[1..], sub, j);
    }
  }

  lemma ContainsAt(s: string, sub: string, k: nat)
    requires k <= |s| && HasPrefix(s[k..], sub)
    ensures Contains(s, sub)
    decreases k
  {
    if k > 0 {
      assert s[1..][k - 1..] == s[k..];
      ContainsAt(s[1..], sub, k - 1);
    }
  }

  /** The family word right after "claude-" decides the family. */
  lemma ClaudeFamily(f: string, d: string)
    requires FamilyWord(f, d)
    ensures Family("claude-" + f) == Some(d)
  {
    var p := "claude-" + f;
    assert p[7..] == f;
    ContainsAt(p, f, 7);
    if f != "opus" {
      assert 'p' !in p by {
        forall i | 0 <= i < |p| ensures p[i] != 'p' {
          if i >= 7 { assert p[i] == f[i - 7]; }
        }
      }
      if Contains(p, "opus") { ContainedChars(p, "opus", 1); }
    }
    if f == "haiku" {
      assert 'n' !in p by {
        forall i | 0 <= i < |p| ensures p[i] != 'n' {
          if i >= 7 { assert p[i] == f[i - 7]; }
        }
      }
      if Contains(p, "sonnet") { ContainedChars(p, "sonnet", 2); }
    }
  }

  /** A join of digit runs holds only digits and '-'. */
  lemma {:induction false} JoinedDigitsOutside(vs: seq<string>)
    requires forall i :: 0 <= i < |vs| ==> AllDigits(vs[i])
    ensures forall k :: 0 <= k < |Join(vs, "-")| ==> OutsideFamilyNames(Join(vs, "-")[k])
  {
    if |vs| > 1 {
      JoinedDigitsOutside(vs[1..]);
      var rest := Join(vs[1..], "-");
      assert Join(vs, "-") == vs[0] + "-" + rest;
      forall k | 0 <= k < |Join(vs, "-")| ensures OutsideFamilyNames(Join(vs, "-")[k]) {
        if k < |vs[0]| { assert Join(vs, "-")[k] == vs[0][k]; }
        else if k > |vs[0]| { assert Join(vs, "-")[k] == rest[k - |vs[0]| - 1]; }
      }
    }
  }

  lemma {:induction false} NoDateStampsKept(vs: seq<string>)
    requires forall i :: 0 <= i < |vs| ==> !IsDateStamp(vs[i])
    ensures DropDateStamps(vs) == vs
  {
    if vs != [] {
      NoDateStampsKept(vs[1..]);
    }
  }

  predicate FamilyWord(f: string, d: string) {
    (f == "opus" && d == "Opus") || (f == "sonnet" && d == "Sonnet") || (f == "haiku" && d == "Haiku")
  }

  predicate VersionParts(vs: seq<string>) {
    |vs| >= 1 && forall i :: 0 <= i < |vs| ==> vs[i] != [] && AllDigits(vs[i]) && !IsDateStamp(vs[i])
  }

  lemma VersionedIdLower(f: string, d: string, p: string, t: string)
    requires FamilyWord(f, d) && p == "claude-" + f
    requires forall k :: 0 <= k < |t| ==> OutsideFamilyNames(t[k])
    ensures Lowercase(p + t) == p + t
  {
    var id := p + t;
    forall k | 0 <= k < |id| ensures !('A' <= id[k] <= 'Z') {
      if k < |p| { assert id[k] == p[k]; }
      else { assert id[k] == t[k - |p|]; }
    }
    LowercaseFixed(id);
  }

  lemma DigitPartsHaveNoDash(vs: seq<string>)
    requires forall i :: 0 <= i < |vs| ==> AllDigits(vs[i])
    ensures forall i :: 0 <= i < |vs| ==> '-' !in vs[i]
  {
    forall i | 0 <= i < |vs| ensures '-' !in vs[i] {
      assert AllDigits(vs[i]);
    }
  }

  lemma FamilyAndVersionComponents(f: string, d: string, vs: seq<string>)
    requires FamilyWord(f, d) && VersionParts(vs)
    ensures Components(f + ['-'] + Join(vs, "-"), '-') == [f] + vs
  {
    DigitPartsHaveNoDash(vs);
    ComponentsJoin(vs, '-');
    ComponentsSplitAt(f, '-', Join(vs, "-"));
    ComponentsNoSep(f, '-');
  }

  lemma ClaudePrefix(x: string)
    ensures "claude-" + x == "claude" + ['-'] + x
  {
    assert "claude-" == "claude" + ['-'];
  }

  lemma VersionedIdComponents(f: string, d: string, vs: seq<string>)
    requires FamilyWord(f, d) && VersionParts(vs)
    ensures Components("claude-" + f + "-" + Join(vs, "-"), '-') == ["claude", f] + vs
  {
    var rest := f + ['-'] + Join(vs, "-");
    var claude := "claude";
    assert "claude-" + f + "-" + Join(vs, "-") == claude + ['-'] + rest by {
      assert "claude-" + f + "-" + Join(vs, "-") == "claude-" + rest;
      ClaudePrefix(rest);
    }
    assert Components(claude + ['-'] + rest, '-') == [claude] + Components(rest, '-') by {
      ComponentsSplitAt(claude, '-', rest);
      ComponentsNoSep(claude, '-');
    }
    FamilyAndVersionComponents(f, d, vs);
  }

  lemma VersionTailOutside(vs: seq<string>)
    requires VersionParts(vs)
    ensures forall k :: 0 <= k < |"-" + Join(vs, "-")| ==> OutsideFamilyNames(("-" + Join(vs, "-"))[k])
  {
    var j := Join(vs, "-");
    var t := "-" + j;
    JoinedDigitsOutside(vs);
    forall k | 0 <= k < |t| ensures OutsideFamilyNames(t[k]) {
      if k > 0 { assert t[k] == j[k - 1]; }
    }
  }

  /** A tail of digits and dashes does not change the family. */
  lemma FamilyIgnoresTail(p: string, t: string)
    requires forall k :: 0 <= k < |t| ==> OutsideFamilyNames(t[k])
    ensures Family(p + t) == Family(p)
  {
    ContainsAppendOutside(p, t, "opus");
    ContainsAppendOutside(p, t, "sonnet");
    ContainsAppendOutside(p, t, "haiku");
  }

  lemma VersionedIdFamily(f: string, d: string, vs: seq<string>)
    requires FamilyWord(f, d) && VersionParts(vs)
    ensures Lowercase("claude-" + f + "-" + Join(vs, "-")) == "claude-" + f + "-" + Join(vs, "-")
    ensures Family("claude-" + f + "-" + Join(vs, "-")) == Some(d)
  {
    var p := "claude-" + f;
    var t := "-" + Join(vs, "-");
    assert "claude-" + f + "-" + Join(vs, "-") == p + t;
    VersionTailOutside(vs);
    VersionedIdLower(f, d, p, t);
    ClaudeFamily(f, d);
    FamilyIgnoresTail(p, t);
  }

  /** The version rule: "claude-<family>-<v1>-...-<vn>", with digit parts and no
      date stamp, is named "<Family> <v1>.….<vn>". */
  lemma VersionedShortName(f: string, d: string, vs: seq<string>)
    requires FamilyWord(f, d) && VersionParts(vs)
    ensures Family(Lowercase("claude-" + f + "-" + Join(vs, "-"))) == Some(d)
    ensures ShortModelName("claude-" + f + "-" + Join(vs, "-")) == d + " " + Join(vs, ".")
  {
    VersionedIdFamily(f, d, vs);
    VersionedIdComponents(f, d, vs);
    assert (["claude", f] + vs)[2..] == vs;
    NoDateStampsKept(vs);
    assert |vs| == 1 || Join(vs, ".") == vs[0] + "." + Join(vs[1..], ".");
  }

  /** With a trailing date stamp the name is the same, the stamp dropped: the
      source's own example, "claude-sonnet-4-6-20251101", is the case
      f = "sonnet", vs = ["4", "6"], date = "20251101", named "Sonnet 4.6". */
  lemma DatedVersionedShortName(f: string, d: string, vs: seq<string>, date: string)
    requires FamilyWord(f, d) && VersionParts(vs)
    requires |date| == 8 && AllDigits(date)
    ensures ShortModelName("claude-" + f + "-" + Join(vs, "-") + "-" + date) == d + " " + Join(vs, ".")
  {
    VersionedShortName(f, d, vs);
    DatedIdAggregates("claude-" + f + "-" + Join(vs, "-"), date);
  }

  // ---- summing over the entries of a JSON object ------------------------------

  ghost function Pick(keys: set<string>): (k: string)
    requires keys != {}
    ensures k in keys
  {
    var k :| k in keys; k
  }

  /** The sum of `f` over a set of keys (a dictionary's entries, in any order). */
  ghost function SumOver(keys: set<string>, f: string -> int): int
    decreases |keys|
  {
    if keys == {} then 0 else var k := Pick(keys); f(k) + SumOver(keys - {k}, f)
  }

  /** Taking any key out first gives the same sum: the order in which the
      dictionary is walked does not matter. */
  lemma {:induction false} SumOverRemove(keys: set<string>, k: string, f: string -> int)
    requires k in keys
    ensures SumOver(keys, f) == f(k) + SumOver(keys - {k}, f)
    decreases |keys|
  {
    var j := Pick(keys);
    if j != k {
      SumOverRemove(keys - {j}, k, f);
      SumOverRemove(keys - {k}, j, f);
      assert keys - {j} - {k} == keys - {k} - {j};
    }
  }

  /** `dict[key] as? Int ?? 0`. */
  function IntOrZero(fields: map<string, Json>, key: string): int {
    if key in fields && AsInt(fields[key]).Some? then AsInt(fields[key]).value else 0
  }

  /** Tokens of one `lastModelUsage` entry; an entry that is not an object is skipped. */
  function UsageTokens(usage: Json): (n: int)
    ensures !usage.JObject? ==> n == 0
  {
    if !usage.JObject? then 0
    else IntOrZero(usage.fields, "inputTokens") + IntOrZero(usage.fields, "outputTokens")
         + IntOrZero(usage.fields, "cacheReadInputTokens") + IntOrZero(usage.fields, "cacheCreationInputTokens")
  }

  /** Tokens of the entry for model id `m`, counted under `name` when that is its short name. */
  function ModelTokens(modelUsage: map<string, Json>, name: string, m: string): int {
    if m in modelUsage && ShortModelName(m) == name then UsageTokens(modelUsage[m]) else 0
  }

  ghost function ModelTerm(modelUsage: map<string, Json>, name: string): string -> int {
    m => ModelTokens(modelUsage, name, m)
  }

  /** `project["lastModelUsage"] as? [String: Any]`. */
  function ModelUsageOf(project: Json): Option<map<string, Json>> {
    match Member(project, "lastModelUsage")
    case Some(JObject(mu)) => Some(mu)
    case _ => None
  }

  /** Tokens one project contributes under a short name. */
  ghost function ProjectTokens(project: Json, name: string): int {
    match ModelUsageOf(project)
    case None => 0
    case Some(mu) => SumOver(mu.Keys, ModelTerm(mu, name))
  }

  ghost function ProjectTerm(projects: map<string, Json>, name: string): string -> int {
    p => if p in projects then ProjectTokens(projects[p], name) else 0
  }

  /** The total of a short name over every project. */
  ghost function Total(projects: map<string, Json>, name: string): int {
    SumOver(projects.Keys, ProjectTerm(projects, name))
  }

  /** `json["projects"] as? [String: Any]` of the parsed file. */
  function ProjectsOf(file: FileRead): Option<map<string, Json>> {
    match file
    case JsonFile(JObject(top)) =>
      (match Member(JObject(top), "projects")
       case Some(JObject(projects)) => Some(projects)
       case _ => None)
    case _ => None
  }

  function Get(totals: map<string, int>, name: string): int {
    if name in totals then totals[name] else 0
  }

  predicate DescendingByTokens(s: seq<ModelTokenStats>) {
    forall i, j :: 0 <= i < j < |s| ==> s[i].totalTokens >= s[j].totalTokens
  }

  predicate DistinctNames(s: seq<ModelTokenStats>) {
    forall i, j :: 0 <= i < j < |s| ==> s[i].modelName != s[j].modelName
  }

  /** What `readModelStats` returns for a projects object: one entry per short
      name whose total is positive, carrying that total, largest first. */
  ghost predicate IsReport(stats: seq<ModelTokenStats>, projects: map<string, Json>) {
    && DescendingByTokens(stats)
    && DistinctNames(stats)
    && (forall i :: 0 <= i < |stats| ==> stats[i].totalTokens == Total(projects, stats[i].modelName) > 0)
    && (forall name :: Total(projects, name) > 0 ==> exists i :: 0 <= i < |stats| && stats[i].modelName == name)
  }

  // ---- sorting ---------------------------------------------------------------

  function Insert(x: ModelTokenStats, s: seq<ModelTokenStats>): (r: seq<ModelTokenStats>)
    ensures multiset(r) == multiset(s) + multiset{x}
    ensures |r| == |s| + 1
  {
    if s == [] || x.totalTokens >= s[0].totalTokens then [x] + s
    else
      assert s == [s[0]] + s[1..];
      [s[0]] + Insert(x, s[1..])
  }

  /** `.sorted { $0.totalTokens > $1.totalTokens }`. */
  function SortDescending(s: seq<ModelTokenStats>): (r: seq<ModelTokenStats>)
    ensures multiset(r) == multiset(s)
  {
    if s == [] then []
    else
      assert s == [s[0]] + s[1..];
      Insert(s[0], SortDescending(s[1..]))
  }

  lemma {:induction false} InsertSorted(x: ModelTokenStats, s: seq<ModelTokenStats>)
    requires DescendingByTokens(s)
    ensures DescendingByTokens(Insert(x, s))
    ensures |s| > 0 && Insert(x, s)[0] != x ==> Insert(x, s)[0] == s[0]
  {
    if s != [] && x.totalTokens < s[0].totalTokens {
      var t := Insert(x, s[1..]);
      InsertSorted(x, s[1..]);
      assert t[0].totalTokens <= s[0].totalTokens;
      assert forall j :: 0 <= j < |t| ==> t[j].totalTokens <= t[0].totalTokens;
      assert Insert(x, s) == [s[0]] + t;
    }
  }

  lemma {:induction false} SortDescendingSorted(s: seq<ModelTokenStats>)
    ensures DescendingByTokens(SortDescending(s))
  {
    if s != [] {
      SortDescendingSorted(s[1..]);
      InsertSorted(s[0], SortDescending(s[1..]));
    }
  }

  lemma SameElements(a: seq<ModelTokenStats>, b: seq<ModelTokenStats>)
    requires multiset(a) == multiset(b)
    ensures forall e :: e in a <==> e in b
  {
    forall e ensures e in a <==> e in b {
      assert e in a <==> e in multiset(a);
      assert e in b <==> e in multiset(b);
    }
  }

  /** Distinct names survive the sort. */
  lemma {:induction false} SortKeepsDistinctNames(s: seq<ModelTokenStats>)
    requires DistinctNames(s)
    ensures DistinctNames(SortDescending(s))
  {
    if s != [] {
      var t := SortDescending(s[1..]);
      assert DistinctNames(s[1..]);
      SortKeepsDistinctNames(s[1..]);
      SameElements(t, s[1..]);
      assert forall e :: e in t ==> e.modelName != s[0].modelName by {
        forall e | e in t ensures e.modelName != s[0].modelName {
          var i :| 0 <= i < |s[1..]| && s[1..][i] == e;
          assert s[i + 1] == e;
        }
      }
      InsertKeepsDistinctNames(s[0], t);
    }
  }

  lemma {:induction false} InsertKeepsDistinctNames(x: ModelTokenStats, s: seq<ModelTokenStats>)
    requires DistinctNames(s)
    requires forall e :: e in s ==> e.modelName != x.modelName
    ensures DistinctNames(Insert(x, s))
  {
    if s != [] && x.totalTokens < s[0].totalTokens {
      assert DistinctNames(s[1..]);
      InsertKeepsDistinctNames(x, s[1..]);
      var t := Insert(x, s[1..]);
      SameElementsInsert(x, s[1..]);
      forall j | 0 <= j < |t| ensures t[j].modelName != s[0].modelName {
        assert t[j] in t;
        if t[j] != x {
          var k :| 0 <= k < |s[1..]| && s[1..][k] == t[j];
          assert s[k + 1] == t[j];
        }
      }
    }
  }

  lemma SameElementsInsert(x: ModelTokenStats, s: seq<ModelTokenStats>)
    ensures forall e :: e in Insert(x, s) <==> e == x || e in s
  {
    forall e ensures e in Insert(x, s) <==> e == x || e in s {
      assert e in Insert(x, s) <==> e in multiset(Insert(x, s));
      assert e in s <==> e in multiset(s);
    }
  }

  // ---- the reader ------------------------------------------------------------

  lemma SumOverInsert(keys: set<string>, k: string, f: string -> int)
    requires k !in keys
    ensures SumOver(keys + {k}, f) == f(k) + SumOver(keys, f)
  {
    SumOverRemove(keys + {k}, k, f);
    assert keys + {k} - {k} == keys;
  }

  lemma ModelSumStep(usage: map<string, Json>, seen: set<string>, m: string)
    requires m !in seen
    ensures forall name :: SumOver(seen + {m}, ModelTerm(usage, name))
                           == ModelTokens(usage, name, m) + SumOver(seen, ModelTerm(usage, name))
  {
    forall name ensures SumOver(seen + {m}, ModelTerm(usage, name))
                        == ModelTokens(usage, name, m) + SumOver(seen, ModelTerm(usage, name)) {
      SumOverInsert(seen, m, ModelTerm(usage, name));
    }
  }

  lemma ProjectSumStep(projects: map<string, Json>, done: set<string>, p: string)
    requires p !in done && p in projects
    ensures forall name :: SumOver(done + {p}, ProjectTerm(projects, name))
                           == ProjectTokens(projects[p], name) + SumOver(done, ProjectTerm(projects, name))
  {
    forall name ensures SumOver(done + {p}, ProjectTerm(projects, name))
                        == ProjectTokens(projects[p], name) + SumOver(done, ProjectTerm(projects, name)) {
      SumOverInsert(done, p, ProjectTerm(projects, name));
    }
  }

  /** One step of the inner loop: `totals[name, default: 0] += tokens` for an
      entry that is an object; any other entry is skipped. */
  method AddEntry(totals: map<string, int>, usage: map<string, Json>, m: string) returns (r: map<string, int>)
    requires m in usage
    ensures forall name :: Get(r, name) == Get(totals, name) + ModelTokens(usage, name, m)
  {
    r := totals;
    if usage[m].JObject? {
      var name := ShortModelName(m);
      r := r[name := Get(r, name) + UsageTokens(usage[m])];
    }
  }

  /** The inner loop of `readModelStats`: adds one project's `lastModelUsage`
      entries to the totals, each under its short name. */
  method AddModelUsage(totals: map<string, int>, usage: map<string, Json>) returns (r: map<string, int>)
    ensures forall name :: Get(r, name) == Get(totals, name) + SumOver(usage.Keys, ModelTerm(usage, name))
  {
    r := totals;
    var seen: set<string> := {};
    while seen != usage.Keys
      invariant seen <= usage.Keys
      invariant forall name :: Get(r, name) == Get(totals, name) + SumOver(seen, ModelTerm(usage, name))
      decreases |usage.Keys - seen|
    {
      var m :| m in usage.Keys - seen;
      r := AddEntry(r, usage, m);
      ModelSumStep(usage, seen, m);
      seen := seen + {m};
    }
  }

  /** What `PositiveEntries` has built after visiting the keys in `visited`. */
  predicate EntriesOf(entries: seq<ModelTokenStats>, totals: map<string, int>, visited: set<string>)
    requires visited <= totals.Keys
  {
    && DistinctNames(entries)
    && (forall i :: 0 <= i < |entries| ==>
          entries[i].modelName in visited && entries[i].totalTokens == totals[entries[i].modelName] > 0)
    && (forall k :: k in visited && totals[k] > 0 ==>
          exists i :: 0 <= i < |entries| && entries[i].modelName == k)
  }

  /** One step of `PositiveEntries`: key `k` is kept when its total is positive. */
  method VisitTotal(entries: seq<ModelTokenStats>, totals: map<string, int>, visited: set<string>, k: string)
    returns (r: seq<ModelTokenStats>)
    requires visited <= totals.Keys && k in totals && k !in visited
    requires EntriesOf(entries, totals, visited)
    ensures EntriesOf(r, totals, visited + {k})
  {
    r := entries;
    if totals[k] > 0 {
      r := entries + [ModelTokenStats(k, totals[k])];
      AppendedNameIsNew(entries, visited, k);
      AppendedEntriesCover(entries, totals, visited, k);
    }
  }

  /** A name not yet visited is new to the entries. */
  lemma AppendedNameIsNew(entries: seq<ModelTokenStats>, visited: set<string>, k: string)
    requires DistinctNames(entries) && k !in visited
    requires forall i :: 0 <= i < |entries| ==> entries[i].modelName in visited
    ensures forall t :: DistinctNames(entries + [ModelTokenStats(k, t)])
  {
  }

  /** Appending the entry for `k` keeps every visited positive total covered. */
  lemma AppendedEntriesCover(entries: seq<ModelTokenStats>, totals: map<string, int>, visited: set<string>, k: string)
    requires visited <= totals.Keys && k in totals && totals[k] > 0
    requires forall k :: k in visited && totals[k] > 0 ==> exists i :: 0 <= i < |entries| && entries[i].modelName == k
    ensures var r := entries + [ModelTokenStats(k, totals[k])];
      forall x :: x in visited + {k} && totals[x] > 0 ==> exists i :: 0 <= i < |r| && r[i].modelName == x
  {
    var r := entries + [ModelTokenStats(k, totals[k])];
    forall x | x in visited + {k} && totals[x] > 0
      ensures exists i :: 0 <= i < |r| && r[i].modelName == x
    {
      if x == k {
        assert r[|entries|].modelName == x;
      } else {
        var i :| 0 <= i < |entries| && entries[i].modelName == x;
        assert r[i].modelName == x;
      }
    }
  }

  /** `totals.filter { $0.value > 0 }.map { ModelTokenStats(...) }`. */
  method PositiveEntries(totals: map<string, int>) returns (entries: seq<ModelTokenStats>)
    ensures DistinctNames(entries)
    ensures forall i :: 0 <= i < |entries| ==>
              entries[i].modelName in totals && entries[i].totalTokens == totals[entries[i].modelName] > 0
    ensures forall k :: k in totals && totals[k] > 0 ==>
              exists i :: 0 <= i < |entries| && entries[i].modelName == k
  {
    entries := [];
    var visited: set<string> := {};
    while visited != totals.Keys
      invariant visited <= totals.Keys
      invariant EntriesOf(entries, totals, visited)
      decreases |totals.Keys - visited|
    {
      var k :| k in totals.Keys - visited;
      entries := VisitTotal(entries, totals, visited, k);
      visited := visited + {k};
    }
  }

  /** One step of the outer loop: project `p`'s entries are added. */
  method AddProject(totals: map<string, int>, projects: map<string, Json>, done: set<string>, p: string)
    returns (r: map<string, int>)
    requires p in projects && p !in done
    requires forall name :: Get(totals, name) == SumOver(done, ProjectTerm(projects, name))
    ensures forall name :: Get(r, name) == SumOver(done + {p}, ProjectTerm(projects, name))
  {
    r := totals;
    var mu := ModelUsageOf(projects[p]);
    if mu.Some? {
      r := AddModelUsage(totals, mu.value);
    }
    ProjectSumStep(projects, done, p);
  }

  /** The outer loop of `readModelStats`: every project's entries added up. */
  method SumProjects(projects: map<string, Json>) returns (totals: map<string, int>)
    ensures forall name :: Get(totals, name) == Total(projects, name)
  {
    totals := map[];
    var done: set<string> := {};
    while done != projects.Keys
      invariant done <= projects.Keys
      invariant forall name :: Get(totals, name) == SumOver(done, ProjectTerm(projects, name))
      decreases |projects.Keys - done|
    {
      var p :| p in projects.Keys - done;
      totals := AddProject(totals, projects, done, p);
      done := done + {p};
    }
  }

  /** Every sorted entry carries its name's positive total. */
  lemma SortedEntriesValues(stats: seq<ModelTokenStats>, entries: seq<ModelTokenStats>,
                            totals: map<string, int>, projects: map<string, Json>)
    requires forall name :: Get(totals, name) == Total(projects, name)
    requires forall e :: e in stats <==> e in entries
    requires forall i :: 0 <= i < |entries| ==>
               entries[i].modelName in totals && entries[i].totalTokens == totals[entries[i].modelName] > 0
    ensures forall i :: 0 <= i < |stats| ==> stats[i].totalTokens == Total(projects, stats[i].modelName) > 0
  {
    forall i | 0 <= i < |stats| ensures stats[i].totalTokens == Total(projects, stats[i].modelName) > 0 {
      assert stats[i] in entries;
      var j :| 0 <= j < |entries| && entries[j] == stats[i];
      assert Get(totals, stats[i].modelName) == totals[stats[i].modelName];
    }
  }

  /** Every name with a positive total has a sorted entry. */
  lemma SortedEntriesCover(stats: seq<ModelTokenStats>, entries: seq<ModelTokenStats>,
                           totals: map<string, int>, projects: map<string, Json>)
    requires forall name :: Get(totals, name) == Total(projects, name)
    requires forall e :: e in stats <==> e in entries
    requires forall k :: k in totals && totals[k] > 0 ==>
               exists i :: 0 <= i < |entries| && entries[i].modelName == k
    ensures forall name :: Total(projects, name) > 0 ==> exists i :: 0 <= i < |stats| && stats[i].modelName == name
  {
    forall name | Total(projects, name) > 0
      ensures exists i :: 0 <= i < |stats| && stats[i].modelName == name
    {
      assert Get(totals, name) > 0;
      var i :| 0 <= i < |entries| && entries[i].modelName == name;
      assert entries[i] in stats;
    }
  }

  /** Sorting the positive totals gives the report. */
  lemma SortedEntriesReport(entries: seq<ModelTokenStats>, totals: map<string, int>, projects: map<string, Json>)
    requires forall name :: Get(totals, name) == Total(projects, name)
    requires DistinctNames(entries)
    requires forall i :: 0 <= i < |entries| ==>
               entries[i].modelName in totals && entries[i].totalTokens == totals[entries[i].modelName] > 0
    requires forall k :: k in totals && totals[k] > 0 ==>
               exists i :: 0 <= i < |entries| && entries[i].modelName == k
    ensures IsReport(SortDescending(entries), projects)
  {
    var stats := SortDescending(entries);
    SortDescendingSorted(entries);
    SortKeepsDistinctNames(entries);
    SameElements(stats, entries);
    SortedEntriesValues(stats, entries, totals, projects);
    SortedEntriesCover(stats, entries, totals, projects);
  }

  /** `readModelStats()` on the result of reading the file. */
  method ReadModelStats(file: FileRead) returns (stats: seq<ModelTokenStats>)
    ensures ProjectsOf(file).None? ==> stats == []
    ensures ProjectsOf(file).Some? ==> IsReport(stats, ProjectsOf(file).value)
  {
    if ProjectsOf(file).None? {
      return [];
    }
    var projects := ProjectsOf(file).value;
    var totals := SumProjects(projects);
    var entries := PositiveEntries(totals);
    stats := SortDescending(entries);
    SortedEntriesReport(entries, totals, projects);
  }
}
