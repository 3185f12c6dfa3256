/**
 * Shared vocabulary of the build scripts and browser code: optional values,
 * JavaScript truthiness of strings, the string operations the scripts use
 * (`startsWith`, `endsWith`, `includes`, `join`, `lastIndexOf`), and the
 * facts read from `package.json`.
 */
module Common {

  datatype Option<+T> = None | Some(value: T)

  /** `m[k]` for a map that may lack the key (JavaScript's `undefined`). */
  function Lookup<K, V>(m: map<K, V>, k: K): (r: Option<V>)
    ensures r.Some? <==> k in m
    ensures r.Some? ==> r.value == m[k]
  {
    if k in m then Some(m[k]) else None
  }

  /** JavaScript truthiness of an optional string: `undefined` and `""` are falsy. */
  predicate Truthy(v: Option<string>)
  {
    v.Some? && v.value != ""
  }

  predicate StartsWith(s: string, prefix: string)
  {
    |prefix| <= |s| && s[..|prefix|] == prefix
  }

  predicate EndsWith(s: string, suffix: string)
  {
    |suffix| <= |s| && s[|s| - |suffix|..] == suffix
  }

  /** `s.includes(sub)`: `sub` occurs in `s` at some position. */
  predicate Includes(s: string, sub: string)
    decreases |s|
  {
    StartsWith(s, sub) || (|s| > 0 && Includes(s[1..], sub))
  }

  /** Every occurrence of `sub` in `s` is found by `Includes`. */
  lemma {:induction false} IncludesAt(s: string, sub: string, i: nat)
    requires i + |sub| <= |s| && s[i..i + |sub|] == sub
    ensures Includes(s, sub)
    decreases i
  {
    if i == 0 {
      assert s[..|sub|] == sub;
    } else {
      assert s[1..][i - 1..i - 1 + |sub|] == s[i..i + |sub|];
      IncludesAt(s[1..], sub, i - 1);
    }
  }

  /** `xs.join(sep)`. */
  function Join(xs: seq<string>, sep: string): (r: string)
    ensures xs == [] ==> r == ""
    ensures |xs| == 1 ==> r == xs[0]
  {
    if xs == [] then ""
    else if |xs| == 1 then xs[0]
    else xs[0] + sep + Join(xs[1..], sep)
  }

  /** `s.lastIndexOf(c)`, with `None` for -1. */
  function LastIndexOf(s: string, c: char): (r: Option<nat>)
    ensures r.Some? ==> r.value < |s| && s[r.value] == c
    ensures r.Some? ==> forall j :: r.value < j < |s| ==> s[j] != c
    ensures r.None? ==> forall j :: 0 <= j < |s| ==> s[j] != c
  {
    if |s| == 0 then None
    else if s[|s| - 1] == c then Some(|s| - 1)
    else LastIndexOf(s[..|s| - 1], c)
  }

  /** `s.indexOf(c)`, with `None` for -1. */
  function IndexOf<T(==)>(s: seq<T>, x: T): (r: Option<nat>)
    ensures r.Some? ==> r.value < |s| && s[r.value] == x && x !in s[..r.value]
    ensures r.None? <==> x !in s
  {
    if |s| == 0 then None
    else if s[0] == x then Some(0)
    else match IndexOf(s[1..], x)
      case None => None
      case Some(i) => assert s[1..][..i] == s[1..i + 1]; Some(i + 1)
  }

  /** A prefix one longer is the shorter prefix followed by one more element. */
  lemma TakeSnoc<T>(s: seq<T>, n: nat)
    requires 0 < n <= |s|
    ensures s[..n] == s[..n - 1] + [s[n - 1]]
    ensures multiset(s[..n]) == multiset(s[..n - 1]) + multiset{s[n - 1]}
  {
    assert s[..n] == s[..n - 1] + [s[n - 1]];
  }

  /** Two appends in a row append the concatenation of what was appended. */
  lemma AppendSteps<T>(s0: seq<T>, a: seq<T>, s1: seq<T>, b: seq<T>, s2: seq<T>)
    requires s1 == s0 + a && s2 == s1 + b
    ensures s2 == s0 + (a + b)
  {
  }

  /** The members of `xs` that fail `ok`, in list order. */
  function Failing(xs: seq<string>, ok: string -> bool): (r: seq<string>)
    ensures |r| <= |xs|
  {
    if xs == [] then []
    else Failing(xs[..|xs| - 1], ok) + (if ok(xs[|xs| - 1]) then [] else [xs[|xs| - 1]])
  }

  /** `Failing` keeps exactly the members of the list that fail the test. */
  lemma {:induction false} FailingMembers(xs: seq<string>, ok: string -> bool)
    ensures forall x :: x in Failing(xs, ok) <==> x in xs && !ok(x)
  {
    if xs != [] {
      var init := xs[..|xs| - 1];
      assert xs == init + [xs[|xs| - 1]];
      FailingMembers(init, ok);
    }
  }

  /** One more element of the list adds at most that element to `Failing`. */
  lemma FailingStep(xs: seq<string>, ok: string -> bool, i: nat)
    requires i < |xs|
    ensures Failing(xs[..i + 1], ok) == Failing(xs[..i], ok) + (if ok(xs[i]) then [] else [xs[i]])
  {
    assert xs[..i + 1][..i] == xs[..i];
  }

  /** `${prefix}${x}${suffix}` for every `x` of `xs`, in order. */
  function Messages(prefix: string, xs: seq<string>, suffix: string): (r: seq<string>)
    ensures |r| == |xs|
    ensures forall i :: 0 <= i < |xs| ==> r[i] == prefix + xs[i] + suffix
  {
    seq(|xs|, i requires 0 <= i < |xs| => prefix + xs[i] + suffix)
  }

  lemma MessagesAppend(prefix: string, xs: seq<string>, ys: seq<string>, suffix: string)
    ensures Messages(prefix, xs + ys, suffix) == Messages(prefix, xs, suffix) + Messages(prefix, ys, suffix)
  {
  }

  /** Checking one more item of a list adds at most the one message about it. */
  lemma ReportStep(prefix: string, xs: seq<string>, ok: string -> bool, i: nat, suffix: string)
    requires i < |xs|
    ensures Messages(prefix, Failing(xs[..i + 1], ok), suffix) ==
      Messages(prefix, Failing(xs[..i], ok), suffix) + (if ok(xs[i]) then [] else [prefix + xs[i] + suffix])
    ensures suffix == "" ==> (Messages(prefix, Failing(xs[..i + 1], ok), suffix) ==
      Messages(prefix, Failing(xs[..i], ok), suffix) + (if ok(xs[i]) then [] else [prefix + xs[i]]))
  {
    assert prefix + xs[i] + "" == prefix + xs[i];
    FailingStep(xs, ok, i);
    MessagesAppend(prefix, Failing(xs[..i], ok), if ok(xs[i]) then [] else [xs[i]], suffix);
  }

  /** The facts about `package.json` the scripts look at; `""` values are falsy. */
  datatype PackageJson = PackageJson(
    homepage: Option<string>,
    scripts: Option<map<string, string>>,
    dependencies: Option<map<string, string>>,
    devDependencies: Option<map<string, string>>)

  /** `package.json` as found on disk: absent, not parsable, or parsed. */
  datatype PackageFile =
    | NotFound(readError: string)
    | Malformed(parseError: string)
    | Parsed(json: PackageJson)

  /** `obj && obj[key]` truthiness for an optional string dictionary. */
  predicate HasEntry(m: Option<map<string, string>>, key: string)
  {
    m.Some? && Truthy(Lookup(m.value, key))
  }

  /** The test a required-entry check applies to each name: `obj && obj[name]`. */
  function Configured(m: Option<map<string, string>>): string -> bool
  {
    s => HasEntry(m, s)
  }
}
