// Package integrity: the builder's anchor and file digests, and the checker that recomputes
// them. Hashing, text encoding, zipping and the manifest schema are parameters.
module Integrity {
  import opened Orders
  import opened Wrappers

  type Bytes = seq<bv8>

  datatype Crypto = Crypto(hash: Bytes -> string, encode: string -> Bytes)

  datatype Entry = Entry(path: string, sha256: string)

  /** The part of the manifest that integrity reads; `files` may be absent. */
  datatype Manifest = Manifest(packageSha256: string, files: Option<seq<Entry>>)

  /** Archive entries in order, with their bytes. */
  datatype Files = Files(names: seq<string>, data: map<string, Bytes>)

  datatype Extracted = Extracted(manifest: Manifest, files: Files, packageHash: string)

  datatype IntegrityResult = IntegrityResult(valid: bool, packageHashMatch: bool, fileHashErrors: seq<string>)

  const MANIFEST := "manifest.json"
  const README := "README.md"

  function Zeros(n: nat): string { if n == 0 then "" else "0" + Zeros(n - 1) }

  /** The anchor older packages carry in place of a digest. */
  function Placeholder(): string { Zeros(64) }

  function LowerChar(c: char): char { if 'A' <= c <= 'Z' then 'a' + (c - 'A') else c }

  function Lower(s: string): string { seq(|s|, (i: nat) requires i < |s| => LowerChar(s[i])) }

  predicate FilesOk(f: Files) {
    && (forall n | n in f.names :: n in f.data)
    && (forall n | n in f.data :: n in f.names)
    && forall i, j | 0 <= i < j < |f.names| :: f.names[i] != f.names[j]
  }

  // ---- The anchor ---------------------------------------------------------------

  function Line(e: Entry): string { e.path + "\n" + Lower(e.sha256) }

  function DigestLines(files: seq<Entry>): seq<string> { Map(Line, files) }

  function Joined(lines: seq<string>): string {
    if lines == [] then ""
    else if |lines| == 1 then lines[0]
    else lines[0] + "\n" + Joined(lines[1..])
  }

  /** The text that is hashed. */
  function Canonical(files: seq<Entry>): string { Joined(Sort(StrLess, DigestLines(files))) }

  /** manifestFileDigestAnchor */
  function Anchor(c: Crypto, files: seq<Entry>): string { c.hash(c.encode(Canonical(files))) }

  lemma {:induction false} StringsSeparate(s: seq<string>)
    ensures StrictWeak(StrLess) && Separates(StrLess, s)
  {
    StrStrictWeak();
    forall a, b | a in s && b in s && a != b ensures StrLess(a, b) || StrLess(b, a) { StrTotal(a, b); }
  }

  /** The order in which files are declared does not change the anchor. */
  lemma {:induction false} AnchorIgnoresOrder(c: Crypto, a: seq<Entry>, b: seq<Entry>)
    requires multiset(a) == multiset(b)
    ensures Anchor(c, a) == Anchor(c, b)
  {
    MapPermute(Line, a, b);
    StringsSeparate(DigestLines(a));
    SortPermutation(StrLess, DigestLines(a), DigestLines(b));
  }

  // ---- What the anchor pins down ---------------------------------------------------

  predicate OneLine(s: string) { forall i | 0 <= i < |s| :: s[i] != '\n' }

  ghost predicate Plain(files: seq<Entry>) { forall e | e in files :: OneLine(e.path) && OneLine(e.sha256) }

  /** Two parts of one line each, followed by nothing or by a new line. */
  ghost predicate TwoParts(s: string, p: string, q: string, rest: string) {
    OneLine(p) && OneLine(q) && s == p + "\n" + q + rest && (rest == "" || rest[0] == '\n')
  }

  function FirstBreak(s: string): nat {
    if s == "" || s[0] == '\n' then 0 else 1 + FirstBreak(s[1..])
  }

  lemma {:induction false} FirstBreakAfter(p: string, rest: string)
    requires OneLine(p) && (rest == "" || rest[0] == '\n')
    ensures FirstBreak(p + rest) == |p|
  {
    if p == "" {
      assert p + rest == rest;
    } else {
      assert (p + rest)[1..] == p[1..] + rest;
      FirstBreakAfter(p[1..], rest);
    }
  }

  lemma {:induction false} FirstBreakIs(p: string, rest: string, q: string, tail: string)
    requires OneLine(p) && OneLine(q) && p + rest == q + tail
    requires rest == "" || rest[0] == '\n'
    requires tail == "" || tail[0] == '\n'
    ensures p == q && rest == tail
  {
    FirstBreakAfter(p, rest);
    FirstBreakAfter(q, tail);
    var s := p + rest;
    assert s[..|p|] == p && s[..|q|] == q && s[|p|..] == rest && s[|q|..] == tail;
  }

  lemma {:induction false} PartsAreUnique(s: string, p: string, q: string, rest: string, p2: string, q2: string, rest2: string)
    requires TwoParts(s, p, q, rest) && TwoParts(s, p2, q2, rest2)
    ensures p == p2 && q == q2 && rest == rest2
  {
    var tail, tail2 := "\n" + (q + rest), "\n" + (q2 + rest2);
    assert s == p + tail && s == p2 + tail2;
    FirstBreakIs(p, tail, p2, tail2);
    assert tail[1..] == q + rest && tail2[1..] == q2 + rest2;
    FirstBreakIs(q, rest, q2, rest2);
  }

  /** A list of such lines. */
  ghost predicate AllTwoParts(lines: seq<string>) {
    forall i | 0 <= i < |lines| :: exists p, q :: OneLine(p) && OneLine(q) && lines[i] == p + "\n" + q
  }

  lemma {:induction false} JoinedHead(lines: seq<string>) returns (p: string, q: string, rest: string)
    requires lines != [] && AllTwoParts(lines)
    ensures TwoParts(Joined(lines), p, q, rest) && lines[0] == p + "\n" + q
    ensures if |lines| == 1 then rest == "" else rest == "\n" + Joined(lines[1..])
  {
    p, q :| OneLine(p) && OneLine(q) && lines[0] == p + "\n" + q;
    rest := if |lines| == 1 then "" else "\n" + Joined(lines[1..]);
    assert Joined(lines) == p + "\n" + q + rest;
  }

  lemma {:induction false} JoinedNonEmpty(lines: seq<string>)
    requires AllTwoParts(lines)
    ensures lines != [] ==> Joined(lines) != ""
  {
    if lines == [] {
    } else {
      var p, q, rest := JoinedHead(lines);
      assert |p + "\n" + q + rest| > 0;
    }
  }

  lemma {:induction false} JoinedInjective(a: seq<string>, b: seq<string>)
    requires AllTwoParts(a) && AllTwoParts(b) && Joined(a) == Joined(b)
    ensures a == b
    decreases |a|
  {
    JoinedNonEmpty(a);
    JoinedNonEmpty(b);
    if a != [] && b != [] {
      var p, q, rest := JoinedHead(a);
      var p2, q2, rest2 := JoinedHead(b);
      PartsAreUnique(Joined(a), p, q, rest, p2, q2, rest2);
      if |a| > 1 && |b| > 1 {
        assert rest[1..] == Joined(a[1..]) && rest2[1..] == Joined(b[1..]);
        assert forall i | 0 <= i < |a[1..]| :: a[1..][i] == a[i + 1];
        assert forall i | 0 <= i < |b[1..]| :: b[1..][i] == b[i + 1];
        JoinedInjective(a[1..], b[1..]);
        assert a == [a[0]] + a[1..] && b == [b[0]] + b[1..];
      }
    }
  }

  /** Two different byte strings with one digest. */
  predicate Collide(c: Crypto, x: Bytes, y: Bytes) { x != y && c.hash(x) == c.hash(y) }

  lemma {:induction false} SortedTwoParts(files: seq<Entry>)
    requires Plain(files)
    ensures AllTwoParts(Sort(StrLess, DigestLines(files)))
  {
    var lines := DigestLines(files);
    var sorted := Sort(StrLess, lines);
    SameElements(sorted, lines);
    forall i | 0 <= i < |sorted| ensures exists p, q :: OneLine(p) && OneLine(q) && sorted[i] == p + "\n" + q {
      assert sorted[i] in lines;
      var k :| 0 <= k < |lines| && lines[k] == sorted[i];
      assert files[k] in files;
      assert OneLine(files[k].path) && OneLine(Lower(files[k].sha256)) && sorted[i] == files[k].path + "\n" + Lower(files[k].sha256);
    }
  }

  /** The hashed texts of one-line entries agree exactly when the declared digests do, whatever their order and case. */
  lemma {:induction false} CanonicalPinsDeclaration(a: seq<Entry>, b: seq<Entry>)
    requires Plain(a) && Plain(b)
    ensures Canonical(a) == Canonical(b) <==> multiset(DigestLines(a)) == multiset(DigestLines(b))
  {
    if Canonical(a) == Canonical(b) {
      SortedTwoParts(a);
      SortedTwoParts(b);
      JoinedInjective(Sort(StrLess, DigestLines(a)), Sort(StrLess, DigestLines(b)));
    }
    if multiset(DigestLines(a)) == multiset(DigestLines(b)) {
      StringsSeparate(DigestLines(a));
      SortPermutation(StrLess, DigestLines(a), DigestLines(b));
    }
  }

  /** Equal anchors mean equal declared digests, or the two given texts encode alike or collide. */
  lemma {:induction false} AnchorPinsDeclaration(c: Crypto, a: seq<Entry>, b: seq<Entry>)
    requires Plain(a) && Plain(b)
    ensures Anchor(c, a) == Anchor(c, b) <==>
            || multiset(DigestLines(a)) == multiset(DigestLines(b))
            || c.encode(Canonical(a)) == c.encode(Canonical(b))
            || Collide(c, c.encode(Canonical(a)), c.encode(Canonical(b)))
  {
    CanonicalPinsDeclaration(a, b);
  }

  // ---- The checker -------------------------------------------------------------------

  function Declared(m: Manifest): seq<Entry> { if m.files.Some? then m.files.value else [] }

  predicate Matches(c: Crypto, f: Files, e: Entry) { e.path in f.data && c.hash(f.data[e.path]) == Lower(e.sha256) }

  predicate Covered(files: seq<Entry>, path: string) { exists e :: e in files && e.path == path }

  function BadDigests(c: Crypto, f: Files, files: seq<Entry>): seq<string> {
    if files == [] then []
    else
      var e := files[|files| - 1];
      BadDigests(c, f, files[..|files| - 1]) + if Matches(c, f, e) then [] else [e.path]
  }

  function Undeclared(names: seq<string>, files: seq<Entry>): seq<string> {
    if names == [] then []
    else
      var n := names[|names| - 1];
      Undeclared(names[..|names| - 1], files) + if n == MANIFEST || Covered(files, n) then [] else [n]
  }

  function AnchorMatches(c: Crypto, m: Manifest, expected: Option<string>): bool {
    if Lower(m.packageSha256) == Placeholder() then expected.Some? else Lower(m.packageSha256) == Anchor(c, Declared(m))
  }

  function Check(c: Crypto, x: Extracted, expected: Option<string>): IntegrityResult {
    var packageMatch := (expected.Some? ==> x.packageHash == Lower(expected.value)) && AnchorMatches(c, x.manifest, expected);
    var errors := BadDigests(c, x.files, Declared(x.manifest)) + Undeclared(x.files.names, Declared(x.manifest));
    IntegrityResult(packageMatch && errors == [], packageMatch, errors)
  }

  method DeclaredPaths(files: seq<Entry>) returns (paths: set<string>)
    ensures forall p :: p in paths <==> Covered(files, p)
  {
    paths := {};
    for i := 0 to |files|
      invariant forall p :: p in paths <==> Covered(files[..i], p)
    {
      paths := paths + {files[i].path};
      assert files[..i + 1] == files[..i] + [files[i]];
      assert files[i] in files[..i + 1] && forall e | e in files[..i] :: e in files[..i + 1];
    }
    assert files[..|files|] == files;
  }

  method DigestErrors(c: Crypto, f: Files, files: seq<Entry>) returns (errors: seq<string>)
    ensures errors == BadDigests(c, f, files)
  {
    errors := [];
    for i := 0 to |files|
      invariant errors == BadDigests(c, f, files[..i])
    {
      assert files[..i + 1][..i] == files[..i];
      if files[i].path !in f.data || c.hash(f.data[files[i].path]) != Lower(files[i].sha256) {
        errors := errors + [files[i].path];
      }
    }
    assert files[..|files|] == files;
  }

  method UndeclaredErrors(names: seq<string>, files: seq<Entry>) returns (errors: seq<string>)
    ensures errors == Undeclared(names, files)
  {
    var paths := DeclaredPaths(files);
    errors := [];
    for i := 0 to |names|
      invariant errors == Undeclared(names[..i], files)
    {
      assert names[..i + 1][..i] == names[..i];
      if names[i] != MANIFEST && names[i] !in paths {
        errors := errors + [names[i]];
      }
    }
    assert names[..|names|] == names;
  }

  method CheckIntegrity(c: Crypto, x: Extracted, expected: Option<string>) returns (r: IntegrityResult)
    ensures r == Check(c, x, expected)
  {
    var packageHashMatch := true;
    if expected.Some? && x.packageHash != Lower(expected.value) {
      packageHashMatch := false;
    }
    var files := Declared(x.manifest);
    var fileHashErrors := DigestErrors(c, x.files, files);
    var extra := UndeclaredErrors(x.files.names, files);
    fileHashErrors := fileHashErrors + extra;
    var declared := Lower(x.manifest.packageSha256);
    if declared == Placeholder() {
      if expected.None? {
        packageHashMatch := false;
      }
    } else if declared != Anchor(c, files) {
      packageHashMatch := false;
    }
    r := IntegrityResult(packageHashMatch && |fileHashErrors| == 0, packageHashMatch, fileHashErrors);
  }

  ghost predicate AllMatch(c: Crypto, f: Files, files: seq<Entry>) { forall e | e in files :: Matches(c, f, e) }

  lemma {:induction false} AllMatchSnoc(c: Crypto, f: Files, front: seq<Entry>, e: Entry)
    ensures AllMatch(c, f, front + [e]) <==> AllMatch(c, f, front) && Matches(c, f, e)
  {
    assert e in front + [e] && forall x | x in front :: x in front + [e];
  }

  lemma {:induction false} NoBadDigests(c: Crypto, f: Files, files: seq<Entry>)
    ensures BadDigests(c, f, files) == [] <==> AllMatch(c, f, files)
  {
    if files == [] {
    } else {
      var front, e := files[..|files| - 1], files[|files| - 1];
      NoBadDigests(c, f, front);
      assert files == front + [e];
      AllMatchSnoc(c, f, front, e);
    }
  }

  ghost predicate AllCovered(names: seq<string>, files: seq<Entry>) {
    forall n | n in names :: n == MANIFEST || Covered(files, n)
  }

  lemma {:induction false} AllCoveredSnoc(front: seq<string>, n: string, files: seq<Entry>)
    ensures AllCovered(front + [n], files) <==> AllCovered(front, files) && (n == MANIFEST || Covered(files, n))
  {
    assert n in front + [n] && forall x | x in front :: x in front + [n];
  }

  lemma {:induction false} NoneUndeclared(names: seq<string>, files: seq<Entry>)
    ensures Undeclared(names, files) == [] <==> AllCovered(names, files)
  {
    if names == [] {
    } else {
      var front, n := names[..|names| - 1], names[|names| - 1];
      NoneUndeclared(front, files);
      assert names == front + [n];
      AllCoveredSnoc(front, n, files);
    }
  }

  /** The archive holds the declared files with the declared digests, the manifest, and nothing else. */
  ghost predicate AsDeclared(c: Crypto, x: Extracted) {
    && (forall e | e in Declared(x.manifest) :: Matches(c, x.files, e))
    && forall p | p in x.files.data :: p == MANIFEST || Covered(Declared(x.manifest), p)
  }

  /** Valid exactly when the files are as declared and both the anchor and the expected hash agree. */
  lemma {:induction false} ValidIff(c: Crypto, x: Extracted, expected: Option<string>)
    requires FilesOk(x.files)
    ensures Check(c, x, expected).valid <==>
            AsDeclared(c, x) && AnchorMatches(c, x.manifest, expected)
            && (expected.Some? ==> x.packageHash == Lower(expected.value))
  {
    NoBadDigests(c, x.files, Declared(x.manifest));
    NoneUndeclared(x.files.names, Declared(x.manifest));
    if Check(c, x, expected).valid {
      assert BadDigests(c, x.files, Declared(x.manifest)) == [] && Undeclared(x.files.names, Declared(x.manifest)) == [];
    }
  }

  /** Two archives that pass with one manifest hold the same files, or two given files collide. */
  lemma {:induction false} ManifestPinsFiles(c: Crypto, x: Extracted, y: Extracted, ex: Option<string>, ey: Option<string>, path: string)
    requires FilesOk(x.files) && FilesOk(y.files) && x.manifest == y.manifest
    requires Check(c, x, ex).valid && Check(c, y, ey).valid && path != MANIFEST
    ensures path in x.files.data <==> path in y.files.data
    ensures path in x.files.data ==>
              x.files.data[path] == y.files.data[path] || Collide(c, x.files.data[path], y.files.data[path])
  {
    ValidIff(c, x, ex);
    ValidIff(c, y, ey);
    var files := Declared(x.manifest);
    if Covered(files, path) {
      var e :| e in files && e.path == path;
      assert Matches(c, x.files, e) && Matches(c, y.files, e);
    }
  }

  // ---- The builder --------------------------------------------------------------------

  const ASSET_PREFIXES := ["assets/"]
  const EXTRA_PREFIXES := ["assets/", "previews/"]

  function Segments(path: string): (parts: seq<string>)
    ensures parts != []
  {
    if path == "" then [""]
    else
      var rest := Segments(path[1..]);
      if path[0] == '/' then [""] + rest else [[path[0]] + rest[0]] + rest[1..]
  }

  predicate StartsWith(s: string, prefix: string) { |prefix| <= |s| && s[..|prefix|] == prefix }

  predicate Letter(ch: char) { 'a' <= ch <= 'z' || 'A' <= ch <= 'Z' }

  /** assertPackageArchivePath does not throw. */
  predicate PathAllowed(path: string, prefixes: seq<string>, space: char -> bool) {
    && path != "" && !space(path[0]) && !space(path[|path| - 1])
    && path[0] != '/' && path[0] != '\\'
    && !(|path| >= 2 && Letter(path[0]) && path[1] == ':')
    && (forall i | 0 <= i < |path| :: path[i] != '\\')
    && (forall s | s in Segments(path) :: s != "" && s != "." && s != "..")
    && exists i :: 0 <= i < |prefixes| && StartsWith(path, prefixes[i])
  }

  /** Setting a property keeps its place if it is there already. */
  function Put(f: Files, name: string, bytes: Bytes): Files {
    Files(if name in f.names then f.names else f.names + [name], f.data[name := bytes])
  }

  function Collected(extras: seq<(string, Bytes)>, assetPath: string, space: char -> bool): Option<Files> {
    if extras == [] then Some(Files([], map[]))
    else
      var (path, body) := extras[|extras| - 1];
      match Collected(extras[..|extras| - 1], assetPath, space)
      case None => None
      case Some(f) => if !PathAllowed(path, EXTRA_PREFIXES, space) || path == assetPath then None else Some(Put(f, path, body))
  }

  function Items(f: Files): seq<(string, Bytes)>
    requires forall n | n in f.names :: n in f.data
  {
    seq(|f.names|, (i: nat) requires i < |f.names| => (f.names[i], f.data[f.names[i]]))
  }

  function PutAll(f: Files, items: seq<(string, Bytes)>): Files {
    if items == [] then f
    else
      var last := items[|items| - 1];
      Put(PutAll(f, items[..|items| - 1]), last.0, last.1)
  }

  function Digests(c: Crypto, f: Files): seq<Entry>
    requires forall n | n in f.names :: n in f.data
  {
    seq(|f.names|, (i: nat) requires i < |f.names| => Entry(f.names[i], c.hash(f.data[f.names[i]])))
  }

  lemma {:induction false} PutFiles(f: Files, name: string, bytes: Bytes)
    requires FilesOk(f)
    ensures FilesOk(Put(f, name, bytes))
  {
  }

  lemma {:induction false} PutOk(f: Files, name: string, bytes: Bytes)
    requires FilesOk(f)
    ensures FilesOk(Put(f, name, bytes))
    ensures forall x :: x in Put(f, name, bytes).data <==> x in f.data || x == name
  {
    PutFiles(f, name, bytes);
  }

  lemma {:induction false} PutAllFiles(f: Files, items: seq<(string, Bytes)>)
    requires FilesOk(f)
    ensures FilesOk(PutAll(f, items))
    decreases |items|
  {
    if items == [] {
    } else {
      var front, last := items[..|items| - 1], items[|items| - 1];
      PutAllFiles(f, front);
      PutFiles(PutAll(f, front), last.0, last.1);
    }
  }

  predicate Names(items: seq<(string, Bytes)>, x: string) { exists i :: 0 <= i < |items| && items[i].0 == x }

  lemma {:induction false} NamesSnoc(front: seq<(string, Bytes)>, last: (string, Bytes), x: string)
    ensures Names(front + [last], x) <==> Names(front, x) || last.0 == x
  {
    var all := front + [last];
    assert all[|front|] == last && forall i | 0 <= i < |front| :: all[i] == front[i];
  }

  lemma {:induction false} PutAllHas(f: Files, items: seq<(string, Bytes)>, x: string)
    ensures x in PutAll(f, items).data <==> x in f.data || Names(items, x)
    decreases |items|
  {
    if items == [] {
    } else {
      var front, last := items[..|items| - 1], items[|items| - 1];
      PutAllHas(f, front, x);
      NamesSnoc(front, last, x);
      assert items == front + [last];
    }
  }

  lemma {:induction false} ItemNames(g: Files, x: string)
    requires FilesOk(g)
    ensures Names(Items(g), x) <==> x in g.data
  {
    if x in g.data {
      var i :| 0 <= i < |g.names| && g.names[i] == x;
      assert Items(g)[i].0 == x;
    }
  }

  datatype Input = Input(assetPath: string, assetBody: Bytes, extras: seq<(string, Bytes)>, readme: Bytes)

  /** Sorting by locale, the manifest schema, JSON, zip and white space are not modelled. */
  datatype Tools = Tools(
    order: seq<Entry> -> seq<Entry>, accepts: Manifest -> bool,
    json: Manifest -> Bytes, zip: Files -> Bytes, space: char -> bool)

  datatype Built = Built(manifest: Manifest, files: Files, packageSha256: string)

  const NO_FILES := Files([], map[])

  function Payload(base: Files, input: Input, extras: Files): Files
    requires forall x | x in extras.names :: x in extras.data
  {
    PutAll(Put(Put(base, README, input.readme), input.assetPath, input.assetBody), Items(extras))
  }

  lemma {:induction false} CollectedOk(extras: seq<(string, Bytes)>, assetPath: string, space: char -> bool)
    requires Collected(extras, assetPath, space).Some?
    ensures var f := Collected(extras, assetPath, space).value;
            && FilesOk(f)
            && forall x | x in f.data :: PathAllowed(x, EXTRA_PREFIXES, space) && x != assetPath
  {
    if extras == [] {
    } else {
      CollectedOk(extras[..|extras| - 1], assetPath, space);
      var last := extras[|extras| - 1];
      PutOk(Collected(extras[..|extras| - 1], assetPath, space).value, last.0, last.1);
    }
  }

  lemma {:induction false} PayloadOk(base: Files, input: Input, extras: Files)
    requires FilesOk(base) && FilesOk(extras)
    ensures FilesOk(Payload(base, input, extras))
    ensures forall x :: x in Payload(base, input, extras).data <==>
                        x in base.data || x == README || x == input.assetPath || x in extras.data
  {
    var start := Put(Put(base, README, input.readme), input.assetPath, input.assetBody);
    PutOk(base, README, input.readme);
    PutOk(Put(base, README, input.readme), input.assetPath, input.assetBody);
    PutAllFiles(start, Items(extras));
    forall x ensures x in PutAll(start, Items(extras)).data <==> x in start.data || x in extras.data {
      PutAllHas(start, Items(extras), x);
      ItemNames(extras, x);
    }
  }

  function ManifestFor(c: Crypto, t: Tools, f: Files): Manifest
    requires forall n | n in f.names :: n in f.data
  {
    var declared := t.order(Digests(c, f));
    Manifest(Anchor(c, declared), Some(declared))
  }

  /** None where the builder throws. */
  function Build(c: Crypto, t: Tools, input: Input): Option<Built> {
    if !PathAllowed(input.assetPath, ASSET_PREFIXES, t.space) then None
    else
      match Collected(input.extras, input.assetPath, t.space)
      case None => None
      case Some(extras) =>
        assert FilesOk(extras) by { CollectedOk(input.extras, input.assetPath, t.space); }
        var payload := Payload(NO_FILES, input, extras);
        assert FilesOk(payload) by { PayloadOk(NO_FILES, input, extras); }
        var manifest := ManifestFor(c, t, payload);
        if !t.accepts(manifest) then None
        else
          var files := Payload(Put(NO_FILES, MANIFEST, t.json(manifest)), input, extras);
          Some(Built(manifest, files, c.hash(t.zip(files))))
  }

  method CollectExtras(extras: seq<(string, Bytes)>, assetPath: string, space: char -> bool) returns (r: Option<Files>)
    ensures r == Collected(extras, assetPath, space)
  {
    var f := NO_FILES;
    for i := 0 to |extras|
      invariant Collected(extras[..i], assetPath, space) == Some(f)
    {
      assert extras[..i + 1][..i] == extras[..i];
      var (path, body) := extras[i];
      if !PathAllowed(path, EXTRA_PREFIXES, space) || path == assetPath {
        CollectStops(extras, i + 1, assetPath, space);
        return None;
      }
      f := Put(f, path, body);
    }
    assert extras[..|extras|] == extras;
    r := Some(f);
  }

  lemma {:induction false} CollectStops(extras: seq<(string, Bytes)>, k: nat, assetPath: string, space: char -> bool)
    requires k <= |extras| && Collected(extras[..k], assetPath, space).None?
    ensures Collected(extras, assetPath, space).None?
    decreases |extras|
  {
    if k < |extras| {
      var front := extras[..|extras| - 1];
      assert front[..k] == extras[..k];
      CollectStops(front, k, assetPath, space);
    } else {
      assert extras[..k] == extras;
    }
  }

  /** No accepted path can take the name of the manifest or of the readme. */
  lemma {:induction false} AllowedIsNotReserved(path: string, prefixes: seq<string>, space: char -> bool)
    requires PathAllowed(path, prefixes, space) && (prefixes == ASSET_PREFIXES || prefixes == EXTRA_PREFIXES)
    ensures path != MANIFEST && path != README
  {
    var i :| 0 <= i < |prefixes| && StartsWith(path, prefixes[i]);
    assert path[0] == prefixes[i][0];
    assert MANIFEST[0] == 'm' && README[0] == 'R';
  }

  lemma {:induction false} DigestsMatch(c: Crypto, f: Files, declared: seq<Entry>)
    requires FilesOk(f) && multiset(declared) == multiset(Digests(c, f))
    requires forall b :: Lower(c.hash(b)) == c.hash(b)
    ensures forall e | e in declared :: Matches(c, f, e)
    ensures forall p :: p in f.data <==> Covered(declared, p)
  {
    SameElements(declared, Digests(c, f));
    forall e | e in declared ensures Matches(c, f, e) && e.path in f.data {
      var i :| 0 <= i < |Digests(c, f)| && Digests(c, f)[i] == e;
    }
    forall p | p in f.data ensures Covered(declared, p) {
      var i :| 0 <= i < |f.names| && f.names[i] == p;
      assert Digests(c, f)[i] in Digests(c, f) && Digests(c, f)[i].path == p;
    }
  }

  ghost predicate FaithfulTools(c: Crypto, t: Tools) {
    && (forall s :: multiset(t.order(s)) == multiset(s))
    && forall b :: Lower(c.hash(b)) == c.hash(b)
  }

  /** Putting the same items on two archives that agree on a name leaves them agreeing on it. */
  lemma {:induction false} SameBytes(f: Files, g: Files, items: seq<(string, Bytes)>, name: string)
    requires (name in f.data <==> name in g.data) && (name in f.data ==> f.data[name] == g.data[name])
    ensures name in PutAll(f, items).data <==> name in PutAll(g, items).data
    ensures name in PutAll(f, items).data ==> PutAll(f, items).data[name] == PutAll(g, items).data[name]
    decreases |items|
  {
    if items == [] {
    } else {
      SameBytes(f, g, items[..|items| - 1], name);
    }
  }

  lemma {:induction false} PayloadUnderManifest(input: Input, extras: Files, body: Bytes, name: string)
    requires FilesOk(extras) && name != MANIFEST
    ensures var f, g := Payload(NO_FILES, input, extras), Payload(Put(NO_FILES, MANIFEST, body), input, extras);
            (name in f.data <==> name in g.data) && (name in f.data ==> f.data[name] == g.data[name])
  {
    SameBytes(Put(Put(NO_FILES, README, input.readme), input.assetPath, input.assetBody),
              Put(Put(Put(NO_FILES, MANIFEST, body), README, input.readme), input.assetPath, input.assetBody),
              Items(extras), name);
  }

  lemma {:induction false} BuiltIsAsDeclared(c: Crypto, t: Tools, input: Input)
    requires FaithfulTools(c, t) && Build(c, t, input).Some?
    ensures var b := Build(c, t, input).value;
            && FilesOk(b.files) && AsDeclared(c, Extracted(b.manifest, b.files, b.packageSha256))
            && b.manifest.packageSha256 == Anchor(c, Declared(b.manifest))
  {
    var b := Build(c, t, input).value;
    var extras := Collected(input.extras, input.assetPath, t.space).value;
    CollectedOk(input.extras, input.assetPath, t.space);
    var payload := Payload(NO_FILES, input, extras);
    PayloadOk(NO_FILES, input, extras);
    var base := Put(NO_FILES, MANIFEST, t.json(b.manifest));
    PutOk(NO_FILES, MANIFEST, t.json(b.manifest));
    PayloadOk(base, input, extras);
    var declared := Declared(b.manifest);
    DigestsMatch(c, payload, declared);
    NoReservedPayload(t, input, extras);
    forall e | e in declared ensures Matches(c, b.files, e) {
      assert Matches(c, payload, e);
      assert Covered(declared, e.path);
      PayloadUnderManifest(input, extras, t.json(b.manifest), e.path);
    }
    forall p | p in b.files.data ensures p == MANIFEST || Covered(declared, p) {
      if p != MANIFEST { PayloadUnderManifest(input, extras, t.json(b.manifest), p); }
    }
  }

  lemma {:induction false} NoReservedPayload(t: Tools, input: Input, extras: Files)
    requires PathAllowed(input.assetPath, ASSET_PREFIXES, t.space) && FilesOk(extras)
    requires forall x | x in extras.data :: PathAllowed(x, EXTRA_PREFIXES, t.space)
    ensures MANIFEST !in Payload(NO_FILES, input, extras).data
  {
    PayloadOk(NO_FILES, input, extras);
    AllowedIsNotReserved(input.assetPath, ASSET_PREFIXES, t.space);
    if MANIFEST in extras.data { AllowedIsNotReserved(MANIFEST, EXTRA_PREFIXES, t.space); }
    assert MANIFEST[0] != README[0];
  }

  /**
   * Any package the builder makes passes the check: against its own archive hash in any case
   * of letters, always; with no expected hash, exactly when its anchor is not the placeholder.
   */
  lemma {:induction false} BuiltPackagePasses(c: Crypto, t: Tools, input: Input, expected: string)
    requires FaithfulTools(c, t) && Build(c, t, input).Some?
    requires Lower(expected) == Build(c, t, input).value.packageSha256
    ensures var b := Build(c, t, input).value;
            var x := Extracted(b.manifest, b.files, b.packageSha256);
            && Check(c, x, Some(expected)).valid
            && (Check(c, x, None).valid <==> b.manifest.packageSha256 != Placeholder())
  {
    BuiltIsAsDeclared(c, t, input);
    var b := Build(c, t, input).value;
    var x := Extracted(b.manifest, b.files, b.packageSha256);
    ValidIff(c, x, Some(expected));
    ValidIff(c, x, None);
    assert Lower(b.manifest.packageSha256) == b.manifest.packageSha256;
  }
}
