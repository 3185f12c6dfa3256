/**
 * The Jekyll generator `ProjectMetadataGenerator` of
 * `_plugins/project_metadata.rb`. For every document of the `projects`
 * collection whose path ends in `frontmatter.yml`, it looks for the main
 * project document of the same directory, merges the front matter into it
 * and removes the `frontmatter.yml` document from the collection.
 *
 * Documents are objects (`Doc`) whose front matter `data` is updated in
 * place; the collection holds them in order. Its `each` loop runs by index
 * over the live array, so deleting the current document makes the loop skip
 * the one that follows it.
 */
module ProjectMetadata {
  import opened Common

  /** A YAML front-matter value. */
  datatype Value =
    | Nil
    | Bool(b: bool)
    | Num(n: int)
    | Str(s: string)
    | List(items: seq<Value>)
    | Hash(entries: map<string, Value>)

  /** `nil?`, or `empty?` for the values that respond to it (strings, arrays, hashes). */
  predicate Blank(v: Value)
  {
    v == Nil || v == Str("") || v == List([]) || (v.Hash? && v.entries == map[])
  }

  /** Ruby truthiness: everything but `nil` and `false`. */
  predicate RubyTruthy(v: Value)
  {
    v != Nil && v != Bool(false)
  }

  /** `data[key]`, which is `nil` for a missing key. */
  function Get(data: map<string, Value>, key: string): (v: Value)
    ensures key !in data ==> v == Nil
    ensures key in data ==> v == data[key]
  {
    if key in data then data[key] else Nil
  }

  /**
   * The front matter of `main` after `merge_metadata(main, fm)`: keys that
   * are missing or blank in `main` take the value from `fm`, then a truthy
   * `layout` of `fm` replaces that of `main`.
   */
  function Merged(main: map<string, Value>, fm: map<string, Value>): (r: map<string, Value>)
    ensures r.Keys == main.Keys + fm.Keys
    ensures forall k :: k in main && !Blank(main[k]) && k != "layout" ==> r[k] == main[k]
    ensures forall k :: k in fm && Blank(Get(main, k)) ==> r[k] == fm[k]
    ensures RubyTruthy(Get(fm, "layout")) ==> r["layout"] == fm["layout"]
    ensures forall k :: k in main && k !in fm ==> r[k] == main[k]
  {
    var filled := map k | k in main.Keys + fm.Keys ::
      if k in fm && Blank(Get(main, k)) then fm[k] else main[k];
    if RubyTruthy(Get(fm, "layout")) then filled["layout" := fm["layout"]] else filled
  }

  /** Merging a document's front matter into itself changes nothing. */
  lemma MergeSelf(data: map<string, Value>)
    ensures Merged(data, data) == data
  {
  }

  /** The front matter merged for the keys in `done`, before the layout step. */
  function Filled(main: map<string, Value>, fm: map<string, Value>, done: set<string>): map<string, Value>
    requires done <= fm.Keys
  {
    map k | k in main.Keys + done :: if k in done && Blank(Get(main, k)) then fm[k] else main[k]
  }

  /** Filling one more key changes at most that key. */
  lemma FilledStep(main: map<string, Value>, fm: map<string, Value>, done: set<string>, key: string)
    requires done <= fm.Keys && key in fm && key !in done
    ensures Filled(main, fm, done + {key}) ==
      (if Blank(Get(main, key)) then Filled(main, fm, done)[key := fm[key]] else Filled(main, fm, done))
  {
  }

  /** Once every key is filled, the layout step completes the merge. */
  lemma FilledAll(main: map<string, Value>, fm: map<string, Value>)
    ensures Merged(main, fm) ==
      (if RubyTruthy(Get(fm, "layout")) then Filled(main, fm, fm.Keys)["layout" := fm["layout"]]
       else Filled(main, fm, fm.Keys))
  {
  }

  /** A document of the collection; its path is fixed, its front matter is updated in place. */
  class Doc {
    const path: string
    var data: map<string, Value>

    constructor (path: string, data: map<string, Value>)
      ensures this.path == path && this.data == data
    {
      this.path := path;
      this.data := data;
    }
  }

  /**
   * `merge_metadata`: a loop over the keys of the front-matter document.
   * Keys are independent of each other, so the result does not depend on
   * the order they are visited in, and `main` may be `fm` itself.
   */
  method MergeMetadata(main: Doc, fm: Doc)
    modifies main
    ensures main.data == Merged(old(main.data), old(fm.data))
    ensures main != fm ==> fm.data == old(fm.data)
  {
    var source := fm.data;
    ghost var start := main.data;
    var remaining := source.Keys;
    while remaining != {}
      invariant remaining <= source.Keys
      invariant main.data == Filled(start, source, source.Keys - remaining)
      invariant main != fm ==> fm.data == source
      decreases remaining
    {
      var key :| key in remaining;
      FilledStep(start, source, source.Keys - remaining, key);
      assert source.Keys - remaining + {key} == source.Keys - (remaining - {key});
      var existing := Get(main.data, key);
      assert existing == Get(start, key);
      if Blank(existing) {
        main.data := main.data[key := source[key]];
      }
      remaining := remaining - {key};
    }
    assert source.Keys - remaining == source.Keys;
    FilledAll(start, source);
    var layout := Get(source, "layout");
    if RubyTruthy(layout) {
      main.data := main.data["layout" := layout];
    }
  }

  /** `File.basename(path)`: the part after the last '/'. */
  function Basename(path: string): (r: string)
    ensures |r| <= |path| && r == path[|path| - |r|..]
    ensures '/' !in r
    ensures r == path || path[|path| - |r| - 1] == '/'
  {
    match LastIndexOf(path, '/')
    case None => path
    case Some(i) => path[i + 1..]
  }

  /** `File.dirname(path)`: the part before the last '/', "/" for the root and "." without a '/'. */
  function Dirname(path: string): (r: string)
    ensures '/' !in path ==> r == "."
    ensures '/' in path ==> var i := |path| - |Basename(path)| - 1;
      r == if i == 0 then "/" else path[..i]
  {
    match LastIndexOf(path, '/')
    case None => "."
    case Some(i) => if i == 0 then "/" else path[..i]
  }

  /** Below the root, a path is its directory, a '/' and its base name. */
  lemma DirnameBasename(path: string)
    requires '/' in path && Dirname(path) != "/"
    ensures Dirname(path) + "/" + Basename(path) == path
  {
    var i := |path| - |Basename(path)| - 1;
    assert path == path[..i] + [path[i]] + path[i + 1..];
  }

  /** The number of dots a name starts with. */
  function LeadingDots(s: string): (k: nat)
    ensures k <= |s|
    ensures forall j :: 0 <= j < k ==> s[j] == '.'
    ensures k < |s| ==> s[k] != '.'
  {
    if s != [] && s[0] == '.' then 1 + LeadingDots(s[1..]) else 0
  }

  /** No '.' in `s` from position `from` on. */
  predicate NoDotFrom(s: string, from: nat)
  {
    forall j :: from <= j < |s| ==> s[j] != '.'
  }

  /**
   * `r` is `base` cut at its last '.', where the dots it starts with do not
   * count; without another dot, `r` is `base` unchanged.
   */
  predicate ExtensionCut(base: string, r: string)
  {
    && |r| <= |base| && r == base[..|r|]
    && (r == base <==> NoDotFrom(base, LeadingDots(base)))
    && (r != base ==> LeadingDots(base) < |r| && base[|r|] == '.' && NoDotFrom(base, |r| + 1))
  }

  /** `base` without its extension. */
  function CutExtension(base: string): (r: string)
    ensures ExtensionCut(base, r)
  {
    var k := LeadingDots(base);
    match LastIndexOf(base[k..], '.')
    case Some(j) => CutAtLastDot(base, k, j); base[..k + j]
    case None => KeptWithoutDot(base, k); base
  }

  lemma CutAtLastDot(base: string, k: nat, j: nat)
    requires k == LeadingDots(base)
    requires LastIndexOf(base[k..], '.') == Some(j)
    ensures ExtensionCut(base, base[..k + j])
  {
    var rest := base[k..];
    assert k + j < |base| && base[k + j] == '.' by { assert rest[j] == base[k + j]; }
    assert j != 0;
    forall i | k + j + 1 <= i < |base|
      ensures base[i] != '.'
    {
      assert rest[i - k] == base[i];
    }
    assert !NoDotFrom(base, k);
  }

  lemma KeptWithoutDot(base: string, k: nat)
    requires k == LeadingDots(base)
    requires LastIndexOf(base[k..], '.').None?
    ensures ExtensionCut(base, base)
  {
    var rest := base[k..];
    forall i | k <= i < |base|
      ensures base[i] != '.'
    {
      assert rest[i - k] == base[i];
    }
  }

  /** `File.basename(path, '.*')`: the base name without its extension. */
  function Stem(path: string): (r: string)
    ensures ExtensionCut(Basename(path), r)
  {
    CutExtension(Basename(path))
  }

  const FrontmatterFile := "frontmatter.yml"

  predicate IsFrontmatter(path: string)
  {
    EndsWith(path, FrontmatterFile)
  }

  /** The project a `frontmatter.yml` belongs to: the name of its directory. */
  function ProjectName(path: string): string
  {
    Basename(Dirname(path))
  }

  /** The test of `find_main_project`'s block. */
  predicate MatchesProject(path: string, name: string)
  {
    Stem(path) == name || Includes(path, name)
  }

  /** The position of the first document from `i` on whose path passes `test`. */
  function FindFrom(docs: seq<Doc>, test: string -> bool, i: nat): (r: Option<nat>)
    ensures r.Some? ==> i <= r.value < |docs| && test(docs[r.value].path)
    ensures r.Some? ==> forall j :: i <= j < r.value ==> !test(docs[j].path)
    ensures r.None? <==> forall j :: i <= j < |docs| ==> !test(docs[j].path)
    decreases |docs| - i
  {
    if i >= |docs| then None
    else if test(docs[i].path) then Some(i)
    else FindFrom(docs, test, i + 1)
  }

  function Matcher(name: string): string -> bool
  {
    path => MatchesProject(path, name)
  }

  /** `find_main_project`: the first document in collection order that matches, or nil. */
  function FindMainProject(docs: seq<Doc>, name: string): (r: Option<nat>)
    ensures r.Some? ==> r.value < |docs| && MatchesProject(docs[r.value].path, name)
    ensures r.Some? ==> forall j :: 0 <= j < r.value ==> !MatchesProject(docs[j].path, name)
    ensures r.None? <==> forall j :: 0 <= j < |docs| ==> !MatchesProject(docs[j].path, name)
  {
    FindFrom(docs, Matcher(name), 0)
  }

  /** The directory name of a path occurs in the path. */
  lemma ProjectNameOccurs(path: string)
    requires IsFrontmatter(path)
    ensures Includes(path, ProjectName(path))
  {
    match LastIndexOf(path, '/') {
      case None =>
        // no directory part: the name is ".", found in the file name's extension
        var k := |path| - 4;
        assert path[|path| - |FrontmatterFile|..] == FrontmatterFile;
        assert path[k] == FrontmatterFile[11];
        assert path[k..k + 1] == ".";
        IncludesAt(path, ".", k);
      case Some(i) =>
        if i == 0 {
          assert path[0..1] == "/";
          IncludesAt(path, "/", 0);
        } else {
          var dir := path[..i];
          var name := Basename(dir);
          var start := |dir| - |name|;
          assert path[start..start + |name|] == dir[start..];
          IncludesAt(path, name, start);
        }
    }
  }

  /**
   * A `frontmatter.yml` path contains the name of its own directory, so the
   * document matches its own project name.
   */
  lemma FrontmatterMatchesItself(path: string)
    requires IsFrontmatter(path)
    ensures MatchesProject(path, ProjectName(path))
  {
    ProjectNameOccurs(path);
  }

  /** While a `frontmatter.yml` document is in the collection, its project is always found, at or before it. */
  lemma ProjectAlwaysFound(docs: seq<Doc>, i: nat)
    requires i < |docs| && IsFrontmatter(docs[i].path)
    ensures var r := FindMainProject(docs, ProjectName(docs[i].path)); r.Some? && r.value <= i
  {
    FrontmatterMatchesItself(docs[i].path);
  }

  /**
   * The documents left by `generate`'s loop from index `i` on: a visited
   * `frontmatter.yml` is deleted and the document after it is not visited.
   */
  function Pass(docs: seq<Doc>, i: nat): seq<Doc>
    decreases |docs| - i
  {
    if i >= |docs| then docs
    else if IsFrontmatter(docs[i].path) then Pass(docs[..i] + docs[i + 1..], i + 1)
    else Pass(docs, i + 1)
  }

  /** The loop only deletes documents: every survivor was there before. */
  lemma {:induction false} PassOnlyDeletes(docs: seq<Doc>, i: nat)
    ensures forall d :: d in Pass(docs, i) ==> d in docs
    decreases |docs| - i
  {
    if i < |docs| {
      if IsFrontmatter(docs[i].path) {
        var next := docs[..i] + docs[i + 1..];
        PassOnlyDeletes(next, i + 1);
        forall d | d in next
          ensures d in docs
        {
          var k :| 0 <= k < |next| && next[k] == d;
          if k < i {
            assert docs[k] == d;
          } else {
            assert docs[k + 1] == d;
          }
        }
      } else {
        PassOnlyDeletes(docs, i + 1);
      }
    }
  }

  /** The documents before the loop position are never touched again. */
  lemma {:induction false} PassKeepsPrefix(docs: seq<Doc>, i: nat)
    requires i <= |docs|
    ensures i <= |Pass(docs, i)| && Pass(docs, i)[..i] == docs[..i]
    decreases |docs| - i
  {
    if i < |docs| {
      if IsFrontmatter(docs[i].path) {
        var next := docs[..i] + docs[i + 1..];
        assert next[..i] == docs[..i];
        if i + 1 <= |next| {
          PassKeepsPrefix(next, i + 1);
          assert Pass(next, i + 1)[..i] == Pass(next, i + 1)[..i + 1][..i];
        }
      } else {
        PassKeepsPrefix(docs, i + 1);
        assert Pass(docs, i + 1)[..i] == Pass(docs, i + 1)[..i + 1][..i];
      }
    }
  }

  /** Only `frontmatter.yml` documents are ever removed. */
  lemma {:induction false} PassKeepsOthers(docs: seq<Doc>, i: nat, d: Doc)
    requires d in docs && !IsFrontmatter(d.path)
    ensures d in Pass(docs, i)
    decreases |docs| - i
  {
    if i < |docs| {
      if IsFrontmatter(docs[i].path) {
        var next := docs[..i] + docs[i + 1..];
        assert d != docs[i];
        assert d in next by {
          var k :| 0 <= k < |docs| && docs[k] == d;
          if k < i {
            assert next[k] == d;
          } else {
            assert next[k - 1] == d;
          }
        }
        PassKeepsOthers(next, i + 1, d);
      } else {
        PassKeepsOthers(docs, i + 1, d);
      }
    }
  }

  /** Of two `frontmatter.yml` documents in a row at the front, the second is skipped and stays. */
  lemma SecondFrontmatterSkipped(a: Doc, b: Doc, rest: seq<Doc>)
    requires IsFrontmatter(a.path) && IsFrontmatter(b.path)
    ensures b in Pass([a, b] + rest, 0)
  {
    var docs := [a, b] + rest;
    assert docs[0] == a;
    assert docs[..0] + docs[1..] == [b] + rest;
    assert Pass(docs, 0) == Pass([b] + rest, 1);
    PassKeepsPrefix([b] + rest, 1);
    assert Pass([b] + rest, 1)[..1] == [b];
  }

  predicate Distinct(docs: seq<Doc>)
  {
    forall i, j :: 0 <= i < j < |docs| ==> docs[i] != docs[j]
  }

  lemma DistinctRemove(docs: seq<Doc>, i: nat)
    requires Distinct(docs) && i < |docs|
    ensures Distinct(docs[..i] + docs[i + 1..])
    ensures forall d :: d in docs[..i] + docs[i + 1..] ==> d in docs
  {
    var next := docs[..i] + docs[i + 1..];
    forall a, b | 0 <= a < b < |next|
      ensures next[a] != next[b]
    {
      var a' := if a < i then a else a + 1;
      var b' := if b < i then b else b + 1;
      assert next[a] == docs[a'] && next[b] == docs[b'];
    }
    forall d | d in next
      ensures d in docs
    {
      var k :| 0 <= k < |next| && next[k] == d;
      assert docs[if k < i then k else k + 1] == d;
    }
  }

  /** `docs.delete(doc)`: every element equal to `doc` is removed. */
  function Delete(docs: seq<Doc>, doc: Doc): (r: seq<Doc>)
    ensures |r| <= |docs| && doc !in r
  {
    if docs == [] then []
    else (if docs[0] == doc then [] else [docs[0]]) + Delete(docs[1..], doc)
  }

  /** `delete` keeps every other document. */
  lemma {:induction false} DeleteKeeps(docs: seq<Doc>, doc: Doc, d: Doc)
    ensures d in Delete(docs, doc) <==> d in docs && d != doc
  {
    if docs != [] {
      DeleteKeeps(docs[1..], doc, d);
      assert docs == [docs[0]] + docs[1..];
    }
  }

  /** In a collection without repeated documents, deleting the one at `i` removes exactly that position. */
  lemma {:induction false} DeleteAt(docs: seq<Doc>, i: nat)
    requires Distinct(docs) && i < |docs|
    ensures Delete(docs, docs[i]) == docs[..i] + docs[i + 1..]
  {
    var tail := docs[1..];
    assert Delete(docs, docs[i]) == (if docs[0] == docs[i] then [] else [docs[0]]) + Delete(tail, docs[i]);
    if i == 0 {
      assert docs[0] !in tail by {
        forall k | 0 <= k < |tail|
          ensures tail[k] != docs[0]
        {
          assert tail[k] == docs[k + 1];
        }
      }
      DeleteAbsent(tail, docs[0]);
      assert docs[..0] + docs[1..] == tail;
    } else {
      assert Distinct(tail) by {
        forall a, b | 0 <= a < b < |tail|
          ensures tail[a] != tail[b]
        {
          assert tail[a] == docs[a + 1] && tail[b] == docs[b + 1];
        }
      }
      assert tail[i - 1] == docs[i];
      DeleteAt(tail, i - 1);
      assert docs[0] != docs[i];
      assert tail[..i - 1] == docs[1..i];
      assert tail[i..] == docs[i + 1..];
      assert docs[..i] == [docs[0]] + docs[1..i];
    }
  }

  lemma {:induction false} DeleteAbsent(docs: seq<Doc>, doc: Doc)
    requires doc !in docs
    ensures Delete(docs, doc) == docs
  {
    if docs != [] {
      DeleteAbsent(docs[1..], doc);
      assert docs == [docs[0]] + docs[1..];
    }
  }

  /** `site.collections['projects']`. */
  class Collection {
    var docs: seq<Doc>

    constructor (docs: seq<Doc>)
      ensures this.docs == docs
    {
      this.docs := docs;
    }

    /**
     * The block of `generate` once the project of the `frontmatter.yml`
     * document at `i` was found at `j`: merge, then delete the document.
     */
    method MergeAndDelete(i: nat, j: nat)
      requires i < |docs| && j < |docs| && Distinct(docs)
      modifies this, docs[j]
      ensures docs == old(docs[..i] + docs[i + 1..])
      ensures old(docs[j]).data == Merged(old(docs[j].data), old(docs[i].data))
    {
      var project := docs[i];
      MergeMetadata(docs[j], project);
      DeleteAt(docs, i);
      docs := Delete(docs, project);
    }

    /** One step of `generate`'s loop: the document at `i` is visited. */
    method Visit(i: nat)
      requires i < |docs| && Distinct(docs)
      modifies this, set d | d in docs
      ensures Distinct(docs)
      ensures forall d :: d in docs ==> d in old(docs)
      ensures |docs| <= |old(docs)|
      ensures Pass(docs, i + 1) == Pass(old(docs), i)
    {
      var project := docs[i];
      if IsFrontmatter(project.path) {
        var name := ProjectName(project.path);
        ProjectAlwaysFound(docs, i);
        var found := FindMainProject(docs, name);
        if found.Some? {
          DistinctRemove(docs, i);
          MergeAndDelete(i, found.value);
        }
      }
    }

    /**
     * `generate`: each visited `frontmatter.yml` document is merged into the
     * first matching document and deleted. Because the document matches
     * itself, a main project is always found; when it is the document
     * itself, the merge changes nothing.
     */
    method Generate()
      requires Distinct(docs)
      modifies this, set d | d in docs
      ensures docs == Pass(old(docs), 0)
      ensures forall d :: d in docs ==> d in old(docs)
      ensures forall d :: d in old(docs) && !IsFrontmatter(d.path) ==> d in docs
    {
      ghost var original := docs;
      var i := 0;
      while i < |docs|
        invariant Distinct(docs)
        invariant forall d :: d in docs ==> d in original
        invariant Pass(docs, i) == Pass(original, 0)
        decreases |docs| - i
      {
        Visit(i);
        i := i + 1;
      }
      forall d | d in original && !IsFrontmatter(d.path)
        ensures d in docs
      {
        PassKeepsOthers(original, 0, d);
      }
    }
  }
}
