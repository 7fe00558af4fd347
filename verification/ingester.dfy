/** Configuration sources of the ingester worker
    (apps/server/cmd/ingester/main.go): a file path is one source; a
    directory contributes its YAML files, base configuration first and
    local overrides last. File-system answers are parameters. */
module Ingester {
  import opened Wrappers
  import opened Text

  // ---------------------------------------------------------------------
  // Path helpers (the parts of path/filepath the ordering depends on)

  /** The extension of a path: the suffix from the last '.' of its final
      element, or "" when that element has no dot. */
  function Ext(path: string): (r: string)
    ensures r == "" || (r[0] == '.' && HasSuffix(path, r))
    ensures forall i :: 0 <= i < |r| ==> r[i] != '/'
    ensures forall i :: 1 <= i < |r| ==> r[i] != '.'
  {
    if |path| == 0 || path[|path| - 1] == '/' then ""
    else if path[|path| - 1] == '.' then "."
    else
      var e := Ext(path[..|path| - 1]);
      if e == "" then "" else e + [path[|path| - 1]]
  }

  /** A name ending in a dot and a dot-free, slash-free suffix has that
      extension. */
  lemma {:induction false} ExtOfSuffix(stem: string, s: string)
    requires forall i :: 0 <= i < |s| ==> s[i] != '.' && s[i] != '/'
    ensures Ext(stem + "." + s) == "." + s
    decreases |s|
  {
    if s == [] {
      assert (stem + "." + s)[|stem|] == '.';
    } else {
      var p := stem + "." + s;
      assert p[..|p| - 1] == stem + "." + s[..|s| - 1];
      ExtOfSuffix(stem, s[..|s| - 1]);
      assert "." + s == "." + s[..|s| - 1] + [s[|s| - 1]];
    }
  }

  /** The final element of a slash-free-ended path. */
  function LastElement(path: string): (r: string)
    ensures HasSuffix(path, r)
    ensures forall i :: 0 <= i < |r| ==> r[i] != '/'
  {
    if |path| == 0 || path[|path| - 1] == '/' then ""
    else LastElement(path[..|path| - 1]) + [path[|path| - 1]]
  }

  function TrimTrailingSlashes(path: string): (r: string)
    ensures r == [] || r[|r| - 1] != '/'
  {
    if |path| > 0 && path[|path| - 1] == '/' then TrimTrailingSlashes(path[..|path| - 1]) else path
  }

  /** filepath.Base: "." for the empty path, "/" for a path of slashes,
      otherwise the last element once trailing slashes are dropped. */
  function Base(path: string): (r: string)
    ensures r != ""
  {
    if path == "" then "."
    else
      var t := TrimTrailingSlashes(path);
      if t == "" then "/" else LastElement(t)
  }

  /** A directory entry's path (filepath.Join without its cleaning). */
  function JoinPath(dir: string, name: string): string {
    dir + "/" + name
  }

  /** The base of a joined entry path is the entry's name. */
  lemma BaseOfJoin(dir: string, name: string)
    requires name != [] && forall i :: 0 <= i < |name| ==> name[i] != '/'
    ensures Base(JoinPath(dir, name)) == name
  {
    LastElementOfName(dir + "/", name);
  }

  lemma {:induction false} LastElementOfName(prefix: string, name: string)
    requires |prefix| > 0 && prefix[|prefix| - 1] == '/'
    requires forall i :: 0 <= i < |name| ==> name[i] != '/'
    ensures LastElement(prefix + name) == name
    decreases |name|
  {
    if name != [] {
      var p := prefix + name;
      assert p[..|p| - 1] == prefix + name[..|name| - 1];
      LastElementOfName(prefix, name[..|name| - 1]);
      assert name == name[..|name| - 1] + [name[|name| - 1]];
    } else {
      assert prefix + name == prefix;
    }
  }

  // ---------------------------------------------------------------------
  // configPriority and the ordering of sources

  /** configPriority: 2 for a local override (its lower-cased base name
      contains ".local.", checked first), 0 for config.yaml / config.yml,
      1 for anything else. */
  function ConfigPriority(path: string): int {
    var base := Lower(Base(path));
    if IsLocalOverride(base) then 2
    else if base == "config.yaml" || base == "config.yml" then 0
    else 1
  }

  predicate IsLocalOverride(base: string) {
    Contains(base, ".local.")
  }

  /** The three priorities and what selects each. */
  lemma ConfigPriorityCases(path: string)
    ensures 0 <= ConfigPriority(path) <= 2
    ensures ConfigPriority(path) == 2 <==> Contains(Lower(Base(path)), ".local.")
    ensures ConfigPriority(path) == 0 <==>
      !Contains(Lower(Base(path)), ".local.") && Lower(Base(path)) in {"config.yaml", "config.yml"}
  {
  }

  /** Go's string comparison (byte order of UTF-8 agrees with code point
      order). */
  predicate LexLess(a: string, b: string) {
    if a == [] then b != []
    else if b == [] then false
    else if a[0] != b[0] then a[0] < b[0]
    else LexLess(a[1..], b[1..])
  }

  lemma {:induction false} LexLessAsym(a: string, b: string)
    ensures LexLess(a, b) ==> !LexLess(b, a)
    decreases |a|
  {
    if a != [] && b != [] && a[0] == b[0] {
      LexLessAsym(a[1..], b[1..]);
    }
  }

  lemma {:induction false} LexLessTotal(a: string, b: string)
    ensures a == b || LexLess(a, b) || LexLess(b, a)
    decreases |a|
  {
    if a != [] && b != [] && a[0] == b[0] {
      LexLessTotal(a[1..], b[1..]);
      if a[1..] == b[1..] {
        assert a == [a[0]] + a[1..] && b == [b[0]] + b[1..];
      }
    }
  }

  lemma {:induction false} LexLessTrans(a: string, b: string, c: string)
    requires LexLess(a, b) && LexLess(b, c)
    ensures LexLess(a, c)
    decreases |a|
  {
    if a != [] && a[0] == b[0] && b[0] == c[0] {
      LexLessTrans(a[1..], b[1..], c[1..]);
    }
  }

  /** The sort key of a config file. */
  function SortName(path: string): string {
    Lower(Base(path))
  }

  /** The comparator handed to sort.Slice: lower priority first, then the
      lower-cased base name. */
  predicate Before(a: string, b: string) {
    var pa := ConfigPriority(a);
    var pb := ConfigPriority(b);
    if pa == pb then LexLess(SortName(a), SortName(b)) else pa < pb
  }

  /** The comparator is a strict weak order: asymmetric, and its
      complement is transitive. */
  lemma BeforeAsym(a: string, b: string)
    ensures Before(a, b) ==> !Before(b, a)
  {
    LexLessAsym(SortName(a), SortName(b));
  }

  lemma NotBeforeTrans(a: string, b: string, c: string)
    requires !Before(b, a) && !Before(c, b)
    ensures !Before(c, a)
  {
    if Before(c, a) {
      LexLessTotal(SortName(a), SortName(b));
      LexLessTotal(SortName(b), SortName(c));
      if ConfigPriority(a) == ConfigPriority(b) == ConfigPriority(c) {
        if LexLess(SortName(b), SortName(a)) {
          LexLessTrans(SortName(c), SortName(a), SortName(b));
        } else {
          LexLessTrans(SortName(c), SortName(a), SortName(b));
        }
      }
    }
  }

  /** Config files in the order loadConfigSources returns them. */
  predicate SortedConfig(files: seq<string>) {
    forall i, j :: 0 <= i < j < |files| ==> !Before(files[j], files[i])
  }

  /** A sorted list has non-decreasing priorities, and within one priority
      non-decreasing lower-cased base names. */
  lemma SortedByPriority(files: seq<string>, i: int, j: int)
    requires SortedConfig(files) && 0 <= i < j < |files|
    ensures ConfigPriority(files[i]) <= ConfigPriority(files[j])
    ensures ConfigPriority(files[i]) == ConfigPriority(files[j]) ==> !LexLess(SortName(files[j]), SortName(files[i]))
  {
    assert !Before(files[j], files[i]);
  }

  // ---------------------------------------------------------------------
  // loadConfigSources

  datatype Entry = Entry(name: string, isDir: bool)

  /** What os.Stat and os.ReadDir report for the configured path. */
  datatype PathInfo =
    | StatFailed(err: Error)
    | File
    | Dir(listing: Result<seq<Entry>>)

  /** An entry kept as a config file: not a directory, extension .yaml or
      .yml in any letter case. */
  predicate IsConfigEntry(e: Entry) {
    !e.isDir && (Lower(Ext(e.name)) == ".yaml" || Lower(Ext(e.name)) == ".yml")
  }

  /** The kept entries' paths, in directory order. */
  function ConfigFiles(dir: string, entries: seq<Entry>): (files: seq<string>)
    ensures |files| <= |entries|
    ensures forall e :: e in entries && IsConfigEntry(e) ==> JoinPath(dir, e.name) in files
    ensures forall f :: f in files ==> exists e :: e in entries && IsConfigEntry(e) && f == JoinPath(dir, e.name)
  {
    if entries == [] then []
    else
      var rest := ConfigFiles(dir, entries[..|entries| - 1]);
      var e := entries[|entries| - 1];
      if IsConfigEntry(e) then rest + [JoinPath(dir, e.name)] else rest
  }

  /** A plain file whose name ends in ".yaml" or ".yml" is kept. */
  lemma YamlEntryKept(stem: string, isYml: bool)
    ensures IsConfigEntry(Entry(stem + (if isYml then ".yml" else ".yaml"), false))
  {
    if isYml {
      ExtOfSuffix(stem, "yml");
      assert stem + ".yml" == stem + "." + "yml";
      assert Lower(".yml") == ".yml";
    } else {
      ExtOfSuffix(stem, "yaml");
      assert stem + ".yaml" == stem + "." + "yaml";
      assert Lower(".yaml") == ".yaml";
    }
  }

  /** The filtering loop of loadConfigSources. */
  method CollectConfigFiles(dir: string, entries: seq<Entry>) returns (files: seq<string>)
    ensures files == ConfigFiles(dir, entries)
  {
    files := [];
    var i := 0;
    while i < |entries|
      invariant 0 <= i <= |entries|
      invariant files == ConfigFiles(dir, entries[..i])
    {
      var e := entries[i];
      if !e.isDir {
        var ext := Lower(Ext(e.name));
        if ext == ".yaml" || ext == ".yml" {
          files := files + [JoinPath(dir, e.name)];
        }
      }
      i := i + 1;
      assert entries[..i][..i - 1] == entries[..i - 1];
    }
    assert entries[..i] == entries;
  }

  /** `less` is a strict weak order, as sort.Slice requires of its
      comparator: asymmetric, with a transitive complement. */
  ghost predicate StrictWeak(less: (string, string) -> bool) {
    (forall a, b :: less(a, b) ==> !less(b, a)) &&
    (forall a, b, c :: !less(b, a) && !less(c, b) ==> !less(c, a))
  }

  /** The priority comparator is one. */
  lemma BeforeStrictWeak()
    ensures StrictWeak(Before)
  {
    forall a, b ensures Before(a, b) ==> !Before(b, a) {
      BeforeAsym(a, b);
    }
    forall a, b, c | !Before(b, a) && !Before(c, b) ensures !Before(c, a) {
      NotBeforeTrans(a, b, c);
    }
  }

  /** No element is placed after one it sorts before. */
  predicate SortedBy(s: seq<string>, less: (string, string) -> bool) {
    forall i, j :: 0 <= i < j < |s| ==> !less(s[j], s[i])
  }

  /** `x` placed before the first element it does not sort after. */
  function Insert(x: string, s: seq<string>, less: (string, string) -> bool): (r: seq<string>)
    ensures multiset(r) == multiset(s) + multiset{x}
  {
    if s == [] || !less(s[0], x) then [x] + s
    else
      assert s == [s[0]] + s[1..];
      [s[0]] + Insert(x, s[1..], less)
  }

  lemma {:induction false} InsertSorted(x: string, s: seq<string>, less: (string, string) -> bool)
    requires StrictWeak(less) && SortedBy(s, less)
    ensures SortedBy(Insert(x, s, less), less)
    decreases |s|
  {
    var r := Insert(x, s, less);
    if s == [] || !less(s[0], x) {
      forall i, j | 0 <= i < j < |r| ensures !less(r[j], r[i]) {
        if i == 0 {
          assert r[j] == s[j - 1];
          if j - 1 > 0 {
            assert !less(s[j - 1], s[0]);
          }
        } else {
          assert r[i] == s[i - 1] && r[j] == s[j - 1];
        }
      }
    } else {
      InsertSorted(x, s[1..], less);
      var t := Insert(x, s[1..], less);
      assert r == [s[0]] + t;
      forall i, j | 0 <= i < j < |r| ensures !less(r[j], r[i]) {
        if i == 0 {
          assert r[j] in multiset(t);
          if r[j] != x {
            assert r[j] in multiset(s[1..]);
            var k :| 0 <= k < |s[1..]| && s[1..][k] == r[j];
            assert s[k + 1] == r[j];
          }
        } else {
          assert r[i] == t[i - 1] && r[j] == t[j - 1];
        }
      }
    }
  }

  /** sort.Slice, by insertion: the result is a permutation of its input
      in comparator order. sort.Slice is not stable, so elements the
      comparator does not separate may come in any order. */
  method SortSlice(files: seq<string>, less: (string, string) -> bool) returns (sorted: seq<string>)
    requires StrictWeak(less)
    ensures multiset(sorted) == multiset(files)
    ensures SortedBy(sorted, less)
  {
    sorted := [];
    var i := 0;
    while i < |files|
      invariant 0 <= i <= |files|
      invariant multiset(sorted) == multiset(files[..i])
      invariant SortedBy(sorted, less)
    {
      InsertSorted(files[i], sorted, less);
      sorted := Insert(files[i], sorted, less);
      assert files[..i + 1] == files[..i] + [files[i]];
      i := i + 1;
    }
    assert files[..i] == files;
  }

  /** loadConfigSources, with each source named by its path: a failing
      stat or directory read is returned; a non-directory path is the only
      source; a directory gives its YAML files in comparator order. */
  method LoadConfigSources(confPath: string, info: PathInfo) returns (r: Result<seq<string>>)
    ensures info.StatFailed? ==> r == Fail(info.err)
    ensures info.File? ==> r == Ok([confPath])
    ensures info.Dir? && info.listing.Fail? ==> r == Fail(info.listing.error)
    ensures info.Dir? && info.listing.Ok? ==>
      r.Ok? && multiset(r.value) == multiset(ConfigFiles(confPath, info.listing.value)) && SortedConfig(r.value)
  {
    match info
    case StatFailed(err) =>
      return Fail(err);
    case File =>
      return Ok([confPath]);
    case Dir(listing) =>
      if listing.Fail? {
        return Fail(listing.error);
      }
      var files := CollectConfigFiles(confPath, listing.value);
      BeforeStrictWeak();
      var sorted := SortSlice(files, Before);
      return Ok(sorted);
  }
}
