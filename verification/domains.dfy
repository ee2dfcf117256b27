/** Route domains and the string keys built from them. */
module Domains {
  import opened Wrappers
  import opened Text

  predicate AllowedChar(c: char) {
    'a' <= c <= 'z' || '0' <= c <= '9' || c == '-' || c == '_'
  }

  predicate AllowedChars(v: string) {
    forall i :: 0 <= i < |v| ==> AllowedChar(v[i])
  }

  /** A domain as it is stored: not empty, and only lower-case letters, digits, '-' and '_'. */
  predicate Clean(v: string) {
    v != "" && AllowedChars(v)
  }

  function Cleaned(domain: string): string {
    Lower(Trim(domain))
  }

  function CleanedAll(domains: seq<string>): seq<string> {
    seq(|domains|, i requires 0 <= i < |domains| => Cleaned(domains[i]))
  }

  /** The position of the first value that is not a legal domain, if any. */
  function FirstBad(values: seq<string>): Option<nat> {
    if values == [] then None
    else if !Clean(values[0]) then Some(0)
    else Shift(FirstBad(values[1..]), 1)
  }

  lemma {:induction false} FirstBadMeaning(values: seq<string>)
    ensures FirstBad(values).None? <==> forall i :: 0 <= i < |values| ==> Clean(values[i])
    ensures FirstBad(values).Some? ==>
              var r := FirstBad(values).value;
              r < |values| && !Clean(values[r]) && forall i :: 0 <= i < r ==> Clean(values[i])
  {
    if values != [] {
      FirstBadMeaning(values[1..]);
      assert values == [values[0]] + values[1..];
    }
  }

  function Shift(position: Option<nat>, offset: nat): Option<nat> {
    match position
    case None => None
    case Some(i) => Some(i + offset)
  }

  /** What normalisation returns: the sorted set of cleaned values, or the first offending index. */
  function Normalize(domains: seq<string>): Result<seq<string>, nat> {
    match FirstBad(CleanedAll(domains))
    case Some(i) => Failure(i)
    case None => Success(SortUnique(CleanedAll(domains)))
  }

  lemma FirstBadStep(values: seq<string>, i: nat)
    requires i < |values|
    ensures FirstBad(values[i..]) == if Clean(values[i]) then Shift(FirstBad(values[i + 1..]), 1) else Some(0)
  {
    assert values[i..][1..] == values[i + 1..];
  }

  /** The inner loop over the characters of one value. */
  method CheckChars(value: string) returns (legal: bool)
    ensures legal == AllowedChars(value)
  {
    for k := 0 to |value|
      invariant forall j :: 0 <= j < k ==> AllowedChar(value[j])
    {
      if !AllowedChar(value[k]) {
        return false;
      }
    }
    return true;
  }

  function Values(list: seq<string>): set<string> {
    set y | y in list
  }

  /** A list with every repeat of an earlier value dropped. */
  function Dedup(list: seq<string>): seq<string> {
    if list == [] then []
    else
      var last, front := list[|list| - 1], list[..|list| - 1];
      if last in Values(front) then Dedup(front) else Dedup(front) + [last]
  }

  lemma DedupStep(list: seq<string>, i: nat)
    requires i < |list|
    ensures Values(list[..i + 1]) == Values(list[..i]) + {list[i]}
    ensures Dedup(list[..i + 1])
            == if list[i] in Values(list[..i]) then Dedup(list[..i]) else Dedup(list[..i]) + [list[i]]
  {
    assert list[..i + 1] == list[..i] + [list[i]];
  }

  lemma {:induction false} DedupValues(list: seq<string>)
    ensures Values(Dedup(list)) == Values(list)
  {
    if list != [] {
      var last, front := list[|list| - 1], list[..|list| - 1];
      DedupValues(front);
      assert list == front + [last];
      forall y ensures y in Dedup(list) <==> y in list {
        assert y in Dedup(front) <==> y in Values(Dedup(front));
        assert y in front <==> y in Values(front);
      }
    }
  }

  lemma SortOfDedup(list: seq<string>)
    ensures SortUnique(Dedup(list)) == SortUnique(list)
  {
    DedupValues(list);
    SortUniqueSorted(list);
    SortUniqueSorted(Dedup(list));
    forall y ensures y in SortUnique(Dedup(list)) <==> y in SortUnique(list) {
      assert y in Values(list) <==> y in list;
      assert y in Values(Dedup(list)) <==> y in Dedup(list);
    }
    StrictlySortedUnique(SortUnique(Dedup(list)), SortUnique(list));
  }

  /** The scan of the source: trim, lower-case, check each character, drop repeats, sort at the end. */
  method NormalizeRouteDomains(domains: seq<string>) returns (r: Result<seq<string>, nat>)
    ensures r == Normalize(domains)
  {
    hide Trim;
    ghost var cleaned := CleanedAll(domains);
    var normalized: seq<string> := [];
    var seen: set<string> := {};
    for i := 0 to |domains|
      invariant FirstBad(cleaned) == Shift(FirstBad(cleaned[i..]), i)
      invariant normalized == Dedup(cleaned[..i]) && seen == Values(cleaned[..i])
    {
      var value := Cleaned(domains[i]);
      FirstBadStep(cleaned, i);
      DedupStep(cleaned, i);
      if value == "" {
        return Failure(i);
      }
      var legal := CheckChars(value);
      if !legal {
        return Failure(i);
      }
      if value !in seen {
        seen := seen + {value};
        normalized := normalized + [value];
      }
    }
    assert cleaned[..|domains|] == cleaned;
    SortOfDedup(cleaned);
    r := Success(SortUnique(normalized));
  }

  /** A stored domain list: what normalisation can return. */
  predicate Normal(domains: seq<string>) {
    StrictlySorted(domains) && forall i :: 0 <= i < |domains| ==> Clean(domains[i])
  }

  lemma CleanedOfClean(v: string)
    requires Clean(v)
    ensures Cleaned(v) == v
  {
    TrimOfUnspaced(v);
  }

  lemma NormalizeIsNormal(domains: seq<string>)
    requires Normalize(domains).Success?
    ensures Normal(Normalize(domains).value)
    ensures forall y :: y in Normalize(domains).value <==> y in CleanedAll(domains)
    ensures domains != [] ==> Normalize(domains).value != []
  {
    var cleaned := CleanedAll(domains);
    FirstBadMeaning(cleaned);
    SortUniqueSorted(cleaned);
    var out := SortUnique(cleaned);
    forall i | 0 <= i < |out| ensures Clean(out[i]) {
      assert out[i] in cleaned;
    }
    if domains != [] { assert cleaned[0] in out; }
  }

  /** Normalisation leaves exactly the normal lists unchanged. */
  lemma NormalizeFixpoints(domains: seq<string>)
    ensures Normalize(domains) == Success(domains) <==> Normal(domains)
  {
    if Normal(domains) {
      var cleaned := CleanedAll(domains);
      forall i | 0 <= i < |domains| ensures cleaned[i] == domains[i] {
        CleanedOfClean(domains[i]);
      }
      assert cleaned == domains;
      FirstBadMeaning(cleaned);
      SortUniqueIdempotent(domains);
    }
    if Normalize(domains) == Success(domains) {
      NormalizeIsNormal(domains);
    }
  }

  lemma NormalizeIdempotent(domains: seq<string>)
    requires Normalize(domains).Success?
    ensures Normalize(Normalize(domains).value) == Normalize(domains)
  {
    NormalizeIsNormal(domains);
    NormalizeFixpoints(Normalize(domains).value);
  }

  /** Two accepted lists normalise alike exactly when their cleaned values form the same set. */
  lemma NormalizeCanonical(a: seq<string>, b: seq<string>)
    requires Normalize(a).Success? && Normalize(b).Success?
    ensures Normalize(a) == Normalize(b)
            <==> (set x | x in a :: Cleaned(x)) == (set x | x in b :: Cleaned(x))
  {
    NormalizeIsNormal(a);
    NormalizeIsNormal(b);
    CleanedValues(a);
    CleanedValues(b);
    var sa, sb := set x | x in a :: Cleaned(x), set x | x in b :: Cleaned(x);
    if sa == sb {
      forall y ensures y in Normalize(a).value <==> y in Normalize(b).value {
        assert y in CleanedAll(a) <==> y in sa;
        assert y in CleanedAll(b) <==> y in sb;
      }
      StrictlySortedUnique(Normalize(a).value, Normalize(b).value);
    }
    if Normalize(a) == Normalize(b) {
      forall y ensures y in sa <==> y in sb {
        assert y in sa <==> y in CleanedAll(a);
        assert y in sb <==> y in CleanedAll(b);
      }
    }
  }

  lemma CleanedValues(domains: seq<string>)
    ensures forall y :: y in CleanedAll(domains) <==> y in (set x | x in domains :: Cleaned(x))
  {
    var cleaned := CleanedAll(domains);
    forall y ensures y in cleaned <==> y in (set x | x in domains :: Cleaned(x)) {
      if y in cleaned {
        var i :| 0 <= i < |cleaned| && cleaned[i] == y;
        assert domains[i] in domains;
      }
      if y in (set x | x in domains :: Cleaned(x)) {
        var x :| x in domains && Cleaned(x) == y;
        var i :| 0 <= i < |domains| && domains[i] == x;
        assert cleaned[i] == y;
      }
    }
  }

  // ---------------------------------------------------------------- keys

  function Join(parts: seq<string>, sep: string): string {
    if parts == [] then ""
    else if |parts| == 1 then parts[0]
    else parts[0] + sep + Join(parts[1..], sep)
  }

  /** duplicate_key of a routed task. */
  function DuplicateKey(run: string, taskClass: string, domains: seq<string>): string {
    run + "|" + taskClass + "|" + Join(domains, ",")
  }

  /** preference_key of an adaptive routing row. */
  function PreferenceKey(taskClass: string, domains: seq<string>, owner: string): string {
    taskClass + "|" + Join(domains, ",") + "|" + owner
  }

  /** A separator that occurs in neither prefix splits a string in one way only. */
  lemma {:induction false} SplitUnique(a: string, b: string, a': string, b': string, sep: char)
    requires sep !in a && sep !in a'
    requires a + [sep] + b == a' + [sep] + b'
    ensures a == a' && b == b'
  {
    var s, s' := a + [sep] + b, a' + [sep] + b';
    assert s[|a|] == sep && forall i :: 0 <= i < |a| ==> s[i] != sep;
    assert s'[|a'|] == sep && forall i :: 0 <= i < |a'| ==> s'[i] != sep;
    assert |a| == |a'|;
    assert a == s[..|a|] && a' == s'[..|a'|];
    assert b == s[|a| + 1..] && b' == s'[|a'| + 1..];
  }

  lemma {:induction false} JoinChars(parts: seq<string>)
    requires forall i :: 0 <= i < |parts| ==> Clean(parts[i])
    ensures '|' !in Join(parts, ",")
    ensures Join(parts, ",") == "" <==> parts == []
    ensures ',' in Join(parts, ",") <==> |parts| > 1
  {
    if |parts| > 1 {
      JoinChars(parts[1..]);
      assert Join(parts, ",")[|parts[0]|] == ',';
    }
  }

  lemma {:induction false} JoinInjective(a: seq<string>, b: seq<string>)
    requires forall i :: 0 <= i < |a| ==> Clean(a[i])
    requires forall i :: 0 <= i < |b| ==> Clean(b[i])
    requires Join(a, ",") == Join(b, ",")
    ensures a == b
  {
    JoinChars(a);
    JoinChars(b);
    if |a| > 1 {
      SplitUnique(a[0], Join(a[1..], ","), b[0], Join(b[1..], ","), ',');
      JoinInjective(a[1..], b[1..]);
      assert a == [a[0]] + a[1..] && b == [b[0]] + b[1..];
    }
  }

  lemma DuplicateKeyInjective(run: string, cls: string, domains: seq<string>,
                              run': string, cls': string, domains': seq<string>)
    requires '|' !in run && '|' !in run' && '|' !in cls && '|' !in cls'
    requires Normal(domains) && Normal(domains')
    requires DuplicateKey(run, cls, domains) == DuplicateKey(run', cls', domains')
    ensures run == run' && cls == cls' && domains == domains'
  {
    var rest, rest' := cls + "|" + Join(domains, ","), cls' + "|" + Join(domains', ",");
    assert DuplicateKey(run, cls, domains) == run + ['|'] + rest;
    assert DuplicateKey(run', cls', domains') == run' + ['|'] + rest';
    SplitUnique(run, rest, run', rest', '|');
    SplitUnique(cls, Join(domains, ","), cls', Join(domains', ","), '|');
    JoinInjective(domains, domains');
  }

  lemma PreferenceKeyInjective(cls: string, domains: seq<string>, owner: string,
                               cls': string, domains': seq<string>, owner': string)
    requires '|' !in cls && '|' !in cls' && Normal(domains) && Normal(domains')
    requires PreferenceKey(cls, domains, owner) == PreferenceKey(cls', domains', owner')
    ensures cls == cls' && domains == domains' && owner == owner'
  {
    JoinChars(domains);
    JoinChars(domains');
    var rest, rest' := Join(domains, ",") + "|" + owner, Join(domains', ",") + "|" + owner';
    assert PreferenceKey(cls, domains, owner) == cls + ['|'] + rest;
    assert PreferenceKey(cls', domains', owner') == cls' + ['|'] + rest';
    SplitUnique(cls, rest, cls', rest', '|');
    SplitUnique(Join(domains, ","), owner, Join(domains', ","), owner', '|');
    JoinInjective(domains, domains');
  }
}
