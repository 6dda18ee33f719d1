/**
 * File names on the receiving side: name cleaning, relative-path validation,
 * the ".adrop-part" temporaries and the first-free-name search.
 * Paths are strings relative to the download directory.
 */
module Names {
  import opened Basics

  type Path = string

  const PART := ".adrop-part"
  const META := ".meta"

  // ----- splitting at '/' -------------------------------------------------

  function Split(s: string): (r: seq<string>)
    ensures |r| >= 1
  {
    if s == "" then [""]
    else
      var r := Split(s[..|s| - 1]);
      var c := s[|s| - 1];
      if c == '/' then r + [""] else r[..|r| - 1] + [r[|r| - 1] + [c]]
  }

  /** The directory part of a path, as its components. */
  function Front(path: string): seq<string> {
    Split(path)[..|Split(path)| - 1]
  }

  function Join(parts: seq<string>): string {
    if parts == [] then ""
    else if |parts| == 1 then parts[0]
    else Join(parts[..|parts| - 1]) + "/" + parts[|parts| - 1]
  }

  lemma JoinSnoc(parts: seq<string>, last: string)
    requires parts != []
    ensures Join(parts + [last]) == Join(parts) + "/" + last
  {
    assert (parts + [last])[..|parts|] == parts;
  }

  lemma ConcatAssoc(x: string, y: string, z: string)
    ensures x + (y + z) == (x + y) + z
  {
  }

  lemma JoinOne(part: string)
    ensures Join([part]) == part && Join([] + [part]) == part
  {
    assert [] + [part] == [part];
  }

  /** Lengthening the last part lengthens the joined path. */
  lemma JoinLengthen(front: seq<string>, last: string, c: char)
    ensures Join(front + [last + [c]]) == Join(front + [last]) + [c]
  {
    hide Join;
    if front == [] {
      JoinOne(last + [c]);
      JoinOne(last);
    } else {
      JoinSnoc(front, last + [c]);
      JoinSnoc(front, last);
      ConcatAssoc(Join(front) + "/", last, [c]);
    }
  }

  /** Joining the parts of a path gives the path back, and no part holds a slash. */
  lemma {:induction false} JoinSplit(s: string)
    ensures Join(Split(s)) == s
    ensures forall k | 0 <= k < |Split(s)| :: '/' !in Split(s)[k]
  {
    if s != "" {
      var t, c := s[..|s| - 1], s[|s| - 1];
      JoinSplit(t);
      assert s == t + [c] by { hide *; }
      JoinSplitStep(t, c);
    }
  }

  lemma SplitSnoc(t: string, c: char)
    ensures var r := Split(t);
            Split(t + [c]) == if c == '/' then r + [""] else r[..|r| - 1] + [r[|r| - 1] + [c]]
  {
    assert (t + [c])[..|t|] == t;
  }

  lemma JoinSplitStep(t: string, c: char)
    requires Join(Split(t)) == t && forall k | 0 <= k < |Split(t)| :: '/' !in Split(t)[k]
    ensures Join(Split(t + [c])) == t + [c]
    ensures forall k | 0 <= k < |Split(t + [c])| :: '/' !in Split(t + [c])[k]
  {
    hide Join, Split;
    SplitSnoc(t, c);
    var r := Split(t);
    if c == '/' {
      JoinSnoc(r, "");
      assert t + "/" + "" == t + [c];
    } else {
      JoinLengthen(r[..|r| - 1], r[|r| - 1], c);
      assert r[..|r| - 1] + [r[|r| - 1]] == r;
    }
  }

  /** A suffix without a slash only lengthens the last part. */
  lemma {:induction false} SplitAppend(a: string, b: string)
    requires '/' !in b
    ensures var r := Split(a); Split(a + b) == r[..|r| - 1] + [r[|r| - 1] + b]
  {
    var r := Split(a);
    if b == "" {
      assert a + b == a && r[|r| - 1] + b == r[|r| - 1];
    } else {
      var b0, c := b[..|b| - 1], b[|b| - 1];
      SplitAppend(a, b0);
      assert (a + b)[..|a + b| - 1] == a + b0;
      assert b0 + [c] == b;
      var q := Split(a + b0);
      assert q[..|q| - 1] == r[..|r| - 1];
      assert q[|q| - 1] + [c] == r[|r| - 1] + b;
    }
  }

  /** A slash starts a new part. */
  lemma {:induction false} SplitSlash(a: string, b: string)
    requires '/' !in b
    ensures Split(a + "/" + b) == Split(a) + [b]
  {
    assert (a + "/")[..|a|] == a;
    SplitAppend(a + "/", b);
    var r := Split(a + "/");
    assert r == Split(a) + [""];
    assert r[..|r| - 1] == Split(a) && r[|r| - 1] + b == b;
  }

  // ----- legal names ------------------------------------------------------

  predicate LegalPart(part: string) {
    part != "" && part != "." && part != ".."
  }

  predicate LegalParts(parts: seq<string>) {
    forall k | 0 <= k < |parts| :: LegalPart(parts[k])
  }

  /** Every component names an entry strictly below the download directory. */
  predicate Legal(p: Path) {
    LegalParts(Split(p))
  }

  /** validRelPath: portable relative paths only. */
  predicate ValidRelPath(p: string) {
    p != "" && '\\' !in p && ':' !in p && '\0' !in p && Legal(p)
  }

  /** The stack of components filepath.Clean keeps of a rooted path. */
  function CleanParts(parts: seq<string>): (r: seq<string>)
    ensures LegalParts(r)
    ensures forall k | 0 <= k < |r| :: r[k] in parts
  {
    if parts == [] then []
    else
      var r := CleanParts(parts[..|parts| - 1]);
      var last := parts[|parts| - 1];
      if last == "" || last == "." then r
      else if last == ".." then (if r == [] then [] else r[..|r| - 1])
      else r + [last]
  }

  /** sanitizeName: the base of the cleaned rooted path, or "file". */
  function SanitizeName(name: string): string {
    var r := CleanParts(Split("/" + name));
    if r == [] then "file" else r[|r| - 1]
  }

  lemma SplitPlain(s: string)
    requires '/' !in s
    ensures Split(s) == [s]
  {
    SplitAppend("", s);
    assert "" + s == s;
  }

  /** Whatever a peer sends as a name, the cleaned name is one legal component. */
  lemma SanitizedIsLegal(name: string)
    ensures Legal(SanitizeName(name)) && Split(SanitizeName(name)) == [SanitizeName(name)]
  {
    var r := CleanParts(Split("/" + name));
    JoinSplit("/" + name);
    if r != [] {
      assert r[|r| - 1] in Split("/" + name);
    }
    SplitPlain(SanitizeName(name));
  }

  lemma CleanSnoc(parts: seq<string>, last: string)
    ensures CleanParts(parts + [last])
         == var r := CleanParts(parts);
            if last == "" || last == "." then r else if last == ".." then (if r == [] then [] else r[..|r| - 1]) else r + [last]
  {
    assert (parts + [last])[..|parts|] == parts;
  }

  /** The components a name is cleaned to, when it has one more. */
  lemma CleanMore(x: string, c: string)
    requires '/' !in c
    ensures CleanParts(Split("/" + (x + "/" + c))) == CleanParts(Split("/" + x) + [c])
    ensures "/" + (x + "/" + c) == "/" + x + "/" + c
  {
    hide CleanParts, Split;
    SplitSlash("/" + x, c);
    assert "/" + (x + "/" + c) == "/" + x + "/" + c;
  }

  /** The last component is what a name is cleaned to; empty components and "." do not count. */
  lemma SanitizeIs(x: string, b: string)
    requires LegalPart(b) && '/' !in b
    ensures SanitizeName(x + "/" + b) == b
    ensures SanitizeName(x + "/") == SanitizeName(x) && SanitizeName(x + "/.") == SanitizeName(x)
  {
    hide CleanParts, Split;
    CleanMore(x, b);
    CleanMore(x, "");
    CleanMore(x, ".");
    assert x + "/" + "" == x + "/";
    assert x + "/" + "." == x + "/.";
    CleanSnoc(Split("/" + x), b);
    CleanSnoc(Split("/" + x), "");
    CleanSnoc(Split("/" + x), ".");
  }

  /** ".." takes back the component before it. */
  lemma SanitizeTakesBack(x: string, b: string)
    requires LegalPart(b) && '/' !in b
    ensures SanitizeName(x + "/" + b + "/..") == SanitizeName(x)
  {
    hide CleanParts, Split, LegalPart;
    var q, r := Split("/" + x), CleanParts(Split("/" + x));
    ConcatAssoc(x + "/" + b, "/", "..");
    assert "/" + ".." == "/..";
    CleanMore(x + "/" + b, "..");
    CleanMore(x, b);
    SplitSlash("/" + x, b);
    CleanPart(q, b);
    CleanSnoc(q + [b], "..");
    assert (r + [b])[..|r + [b]| - 1] == r;
  }

  lemma CleanPart(parts: seq<string>, b: string)
    requires LegalPart(b)
    ensures CleanParts(parts + [b]) == CleanParts(parts) + [b]
  {
    hide CleanParts;
    CleanSnoc(parts, b);
  }

  /** A single component is kept, and where nothing is left the name is "file". */
  lemma SanitizeOne(b: string)
    requires '/' !in b
    ensures SanitizeName(b) == if b == "" || b == "." || b == ".." then "file" else b
  {
    hide CleanParts, Split;
    NothingClean();
    SplitSlash("", b);
    assert "" + "/" + b == "/" + b;
    CleanSnoc([""], b);
  }

  lemma NothingClean()
    ensures Split("") == [""] && CleanParts([""]) == [] && CleanParts([]) == []
  {
    assert [""][..0] == [];
  }

  // ----- decimal suffixes -------------------------------------------------

  const DIGITS := "0123456789"

  function Decimal(n: nat): (s: string)
    ensures s != ""
    ensures forall k | 0 <= k < |s| :: s[k] in DIGITS
  {
    if n < 10 then [DIGITS[n]] else Decimal(n / 10) + [DIGITS[n % 10]]
  }

  function DigitValue(c: char): nat {
    if '0' <= c <= '9' then (c as int) - ('0' as int) else 0
  }

  function Value(s: string): nat {
    if s == "" then 0 else 10 * Value(s[..|s| - 1]) + DigitValue(s[|s| - 1])
  }

  lemma {:induction false} ValueOfDecimal(n: nat)
    ensures Value(Decimal(n)) == n
  {
    if n < 10 {
      assert Decimal(n)[..0] == "";
    } else {
      ValueOfDecimal(n / 10);
      assert Decimal(n)[..|Decimal(n)| - 1] == Decimal(n / 10);
    }
  }

  // ----- auto-renaming ----------------------------------------------------

  /** Where filepath.Ext starts scanning down from index i, or |name| when there is no dot. */
  function ExtFrom(name: string, i: nat): (k: nat)
    requires i <= |name|
    ensures k <= |name|
    ensures k < |name| ==> k < i && name[k] == '.' && forall j | k < j < i :: name[j] != '.' && name[j] != '/'
  {
    if i == 0 || name[i - 1] == '/' then |name|
    else if name[i - 1] == '.' then i - 1
    else ExtFrom(name, i - 1)
  }

  function Ext(name: string): string {
    name[ExtFrom(name, |name|)..]
  }

  function Stem(name: string): string {
    name[..ExtFrom(name, |name|)]
  }

  function Counter(i: nat): (s: string)
    ensures |s| >= 4 && s[0] == ' ' && s[|s| - 1] == ')'
  {
    " (" + Decimal(i) + ")"
  }

  /** The i-th name tried: the name itself, then "stem (1).ext", "stem (2).ext" and so on. */
  function Candidate(name: string, i: nat): string {
    if i == 0 then name else Stem(name) + Counter(i) + Ext(name)
  }

  lemma StemExt(name: string)
    ensures Stem(name) + Ext(name) == name
    ensures '/' !in Ext(name)
    ensures Ext(name) != "" ==> Ext(name)[0] == '.' && '.' !in Ext(name)[1..]
  {
  }

  lemma MiddleSlice(a: string, u: string, b: string)
    ensures |a + " (" + u + ")" + b| == |a| + |u| + |b| + 3
    ensures (a + " (" + u + ")" + b)[|a| + 2..|a| + 2 + |u|] == u
  {
    assert a + " (" + u + ")" + b == (a + " (") + u + (")" + b);
  }

  lemma CandidateParts(name: string, i: nat)
    requires i > 0
    ensures var s, u := Stem(name), Decimal(i);
            && |Candidate(name, i)| == |name| + |u| + 3
            && Candidate(name, i)[|s| + 2..|s| + 2 + |u|] == u
  {
    hide Stem, Ext, Decimal;
    StemExt(name);
    var s, u, e := Stem(name), Decimal(i), Ext(name);
    MiddleSlice(s, u, e);
    assert s + (" (" + u + ")") + e == s + " (" + u + ")" + e;
    assert |s| + |e| == |s + e|;
  }

  lemma CandidateZero(name: string)
    ensures Candidate(name, 0) == name
  {
  }

  lemma CandidateAt(name: string, i: nat)
    requires i > 0
    ensures Candidate(name, i) == Stem(name) + Counter(i) + Ext(name)
  {
  }

  lemma CandidateInjective(name: string, i: nat, j: nat)
    requires Candidate(name, i) == Candidate(name, j)
    ensures i == j
  {
    hide Candidate, Decimal, Stem, Value;
    if i > 0 { CandidateParts(name, i); ValueOfDecimal(i); }
    if j > 0 { CandidateParts(name, j); ValueOfDecimal(j); }
    CandidateZero(name);
  }

  /** Renaming stays in the same directory and stays legal. */
  lemma CandidateIsLegal(name: string, i: nat)
    requires Legal(name)
    ensures Legal(Candidate(name, i))
    ensures var a, b := Split(Candidate(name, i)), Split(name);
            |a| == |b| && a[..|a| - 1] == b[..|b| - 1]
  {
    hide Stem, Counter, Ext, Candidate, Split;
    CandidateZero(name);
    if i != 0 {
      StemExt(name);
      CounterHasNoSlash(i);
      CandidateAt(name, i);
      var s, c, e := Stem(name), Counter(i), Ext(name);
      ConcatAssoc(s, c, e);
      RenameParts(s, c + e, e);
    }
  }

  /** Two names that differ in their last part only, where the new last part holds a space. */
  lemma RenameParts(s: string, t: string, e: string)
    requires '/' !in t && '/' !in e && ' ' in t
    ensures var a, b := Split(s + t), Split(s + e);
            |a| == |b| && a[..|a| - 1] == b[..|b| - 1] && (LegalParts(b) ==> LegalParts(a))
  {
    hide Split;
    SplitAppend(s, t);
    SplitAppend(s, e);
    var r, a, b := Split(s), Split(s + t), Split(s + e);
    assert ' ' in r[|r| - 1] + t;
    forall k | 0 <= k < |a| && LegalParts(b) ensures LegalPart(a[k]) {
      if k < |a| - 1 {
        assert a[k] == b[k];
      }
    }
  }

  lemma CounterHasNoSlash(i: nat)
    ensures '/' !in Counter(i) && ' ' in Counter(i)
  {
  }

  /** The number goes before the extension: "stem.ext" becomes "stem (n).ext". */
  lemma CandidateIs(stem: string, ext: string, i: nat)
    requires i > 0 && '.' !in ext && '/' !in ext
    ensures Candidate(stem + "." + ext, i) == stem + " (" + Decimal(i) + ")." + ext
  {
    hide Decimal, ExtFrom;
    DotIsFound(stem, ext);
    var name := stem + "." + ext;
    assert name[..|stem|] == stem && name[|stem|..] == "." + ext;
    CandidateAt(name, i);
    assert stem + (" (" + Decimal(i) + ")") + ("." + ext) == stem + " (" + Decimal(i) + ")." + ext;
  }

  /** A name without an extension, whatever dots its directories have, gets the number at its end. */
  lemma PlainCandidateIs(dir: string, base: string, i: nat)
    requires i > 0 && '.' !in base && '/' !in base
    ensures Candidate(base, i) == base + " (" + Decimal(i) + ")"
    ensures Candidate(dir + "/" + base, i) == dir + "/" + base + " (" + Decimal(i) + ")"
  {
    hide Decimal, ExtFrom;
    NoDotIsFound(base);
    SlashIsFound(dir, base);
    NoExtension(base, i);
    NoExtension(dir + "/" + base, i);
  }

  lemma NoExtension(name: string, i: nat)
    requires i > 0 && ExtFrom(name, |name|) == |name|
    ensures Candidate(name, i) == name + " (" + Decimal(i) + ")"
  {
    hide Decimal, ExtFrom;
    CandidateAt(name, i);
    assert name[|name|..] == "" && name[..|name|] == name;
    assert name + (" (" + Decimal(i) + ")") + "" == name + " (" + Decimal(i) + ")";
  }

  lemma DotIsFound(stem: string, ext: string)
    requires '.' !in ext && '/' !in ext
    ensures ExtFrom(stem + "." + ext, |stem + "." + ext|) == |stem|
  {
    var name := stem + "." + ext;
    assert name[|stem|] == '.' && forall j | |stem| < j < |name| :: name[j] == ext[j - |stem| - 1];
    ExtFromFinds(name, |name|, |stem|);
  }

  lemma {:induction false} NoDotBefore(name: string, i: nat)
    requires i <= |name| && forall j | 0 <= j < i :: name[j] != '.'
    ensures ExtFrom(name, i) == |name|
  {
    if i > 0 && name[i - 1] != '/' { NoDotBefore(name, i - 1); }
  }

  lemma NoDotIsFound(name: string)
    ensures '.' !in name ==> ExtFrom(name, |name|) == |name|
  {
    if '.' !in name { NoDotBefore(name, |name|); }
  }

  lemma {:induction false} SlashStops(name: string, q: nat, i: nat)
    requires q < i <= |name| && name[q] == '/' && forall j | q < j < i :: name[j] != '.'
    ensures ExtFrom(name, i) == |name|
  {
    if q < i - 1 && name[i - 1] != '/' { SlashStops(name, q, i - 1); }
  }

  lemma SlashIsFound(dir: string, base: string)
    requires '.' !in base
    ensures ExtFrom(dir + "/" + base, |dir + "/" + base|) == |dir + "/" + base|
  {
    var name := dir + "/" + base;
    assert name[|dir|] == '/' && forall j | |dir| < j < |name| :: name[j] == base[j - |dir| - 1];
    SlashStops(name, |dir|, |name|);
  }

  // ----- the first free name ----------------------------------------------

  /** The first i names tried. */
  ghost function Tried(name: string, i: nat): set<string> {
    set k | 0 <= k < i :: Candidate(name, k)
  }

  lemma TriedStep(name: string, i: nat)
    ensures Tried(name, i + 1) == Tried(name, i) + {Candidate(name, i)}
    ensures Candidate(name, i) !in Tried(name, i)
  {
    hide Candidate;
    forall k | 0 <= k < i ensures Candidate(name, k) != Candidate(name, i) {
      if Candidate(name, k) == Candidate(name, i) { CandidateInjective(name, k, i); }
    }
  }

  /** Pigeonhole: i distinct names inside a finite set means i is at most its size. */
  lemma {:induction false} TriedCount(name: string, i: nat)
    ensures |Tried(name, i)| == i
  {
    hide Candidate;
    if i > 0 {
      TriedCount(name, i - 1);
      TriedStep(name, i - 1);
    } else {
      assert Tried(name, 0) == {};
    }
  }

  lemma TriedBound(name: string, i: nat, occupied: set<string>)
    requires forall k | 0 <= k < i :: Candidate(name, k) in occupied
    ensures i <= |occupied|
  {
    TriedCount(name, i);
    SubsetCount(Tried(name, i), occupied);
  }

  /** Index of the first candidate, from i on, that is not occupied. */
  function FirstFree(name: string, occupied: set<string>, i: nat): (k: nat)
    requires forall j | 0 <= j < i :: Candidate(name, j) in occupied
    ensures i <= k
    ensures Candidate(name, k) !in occupied
    ensures forall j | 0 <= j < k :: Candidate(name, j) in occupied
    decreases |occupied| + 1 - i
  {
    TriedBound(name, i, occupied);
    if Candidate(name, i) in occupied then FirstFree(name, occupied, i + 1) else i
  }

  /** The name a new transfer gets when the occupied names are taken. */
  function FreeName(name: string, occupied: set<string>): string {
    Candidate(name, FirstFree(name, occupied, 0))
  }

  /** The names blocked by a set of claimed temporaries. */
  function ClaimedNames(claims: set<Path>): (r: set<Path>)
    ensures forall c :: c in r <==> c + PART in claims
  {
    var r := set t | t in claims && EndsWith(t, PART) :: t[..|t| - |PART|];
    assert forall c: Path {:trigger c in r} :: c in r <==> c + PART in claims by {
      forall c: Path ensures c in r <==> c + PART in claims {
        var t := c + PART;
        assert EndsWith(t, PART) && t[..|t| - |PART|] == c;
        if c in r {
          var u :| u in claims && EndsWith(u, PART) && u[..|u| - |PART|] == c;
          assert u == c + PART;
        }
      }
    }
    r
  }

  /**
   * uniquePathExcept: probe the name, then the numbered names in order, until one neither
   * exists on disk nor is claimed by a transfer in flight. The loop ends for every finite
   * directory and every finite set of claims.
   */
  method UniquePathExcept(name: string, onDisk: set<Path>, claims: set<Path>) returns (dest: Path)
    ensures dest == FreeName(name, onDisk + ClaimedNames(claims))
    ensures dest !in onDisk && dest + PART !in claims
    ensures exists i: nat :: dest == Candidate(name, i)
              && forall j: nat | j < i :: Candidate(name, j) in onDisk || Candidate(name, j) + PART in claims
  {
    hide Candidate, Stem, Ext, Counter, FirstFree;
    ghost var occupied := onDisk + ClaimedNames(claims);
    dest := name;
    CandidateZero(name);
    if dest !in onDisk && dest + PART !in claims {
      FirstFreeUnique(name, occupied, 0);
      return;
    }
    var ext, stem := Ext(name), Stem(name);
    var i := 1;
    dest := stem + Counter(i) + ext;
    CandidateAt(name, i);
    while dest in onDisk || dest + PART in claims
      invariant i >= 1 && dest == Candidate(name, i)
      invariant forall j | 0 <= j < i :: Candidate(name, j) in occupied
      decreases |occupied| + 1 - i
    {
      TriedBound(name, i + 1, occupied);
      i := i + 1;
      dest := stem + Counter(i) + ext;
      CandidateAt(name, i);
    }
    assert forall j: nat | j < i :: Candidate(name, j) in onDisk || Candidate(name, j) + PART in claims;
    FirstFreeUnique(name, occupied, i);
  }

  lemma FirstFreeUnique(name: string, occupied: set<string>, i: nat)
    requires Candidate(name, i) !in occupied
    requires forall j | 0 <= j < i :: Candidate(name, j) in occupied
    ensures FirstFree(name, occupied, 0) == i
  {
    hide Candidate;
    var k := FirstFree(name, occupied, 0);
    assert forall j | 0 <= j < k :: Candidate(name, j) != Candidate(name, i);
  }

  // ----- temporaries ------------------------------------------------------

  function Tmp(dest: Path): Path { dest + PART }

  /** partMetaPath of a temporary. */
  function Sidecar(dest: Path): Path { dest + PART + META }

  /** p can be the temporary or the sidecar of some slot. */
  predicate TempName(p: Path) {
    || (EndsWith(p, PART) && Legal(p[..|p| - |PART|]))
    || (EndsWith(p, PART + META) && Legal(p[..|p| - |PART + META|]))
  }

  /**
   * Names whose files can be mistaken for another transfer's temporaries. An illegal stem,
   * as in ".adrop-part", still counts: its renamed copy " (1).adrop-part" has a legal one.
   */
  predicate Reserved(name: string) {
    || EndsWith(name, PART)
    || (EndsWith(name, PART + META) && Legal(name[..|name| - |PART + META|]))
  }

  lemma TempNamesAre()
    ensures Tmp("q") == "q.adrop-part" && Sidecar("q") == "q.adrop-part.meta"
  {
  }

  lemma TempPathsDiffer(d: Path, e: Path)
    ensures Tmp(d) != Sidecar(e)
    ensures Tmp(d) == Tmp(e) ==> d == e
    ensures Sidecar(d) == Sidecar(e) ==> d == e
  {
    assert Tmp(d)[|Tmp(d)| - 1] == 't';
    assert Sidecar(e)[|Sidecar(e)| - 1] == 'a';
    if Tmp(d) == Tmp(e) {
      assert d == Tmp(d)[..|Tmp(d)| - |PART|] == Tmp(e)[..|Tmp(e)| - |PART|] == e;
    }
    if Sidecar(d) == Sidecar(e) {
      assert d == Sidecar(d)[..|d|] && |d| == |e| && e == Sidecar(e)[..|e|];
    }
  }

  lemma TempPathsAreTempNames(d: Path)
    requires Legal(d)
    ensures TempName(Tmp(d)) && TempName(Sidecar(d))
  {
    assert EndsWith(Tmp(d), PART) && Tmp(d)[..|Tmp(d)| - |PART|] == d;
    assert Sidecar(d) == d + (PART + META);
    assert EndsWith(Sidecar(d), PART + META) && Sidecar(d)[..|Sidecar(d)| - |PART + META|] == d;
  }

  /** Two positions that both hold the last dot of a string are the same position. */
  lemma LastDotUnique(c: string, p: nat, q: nat)
    requires p < |c| && c[p] == '.' && forall j | p < j < |c| :: c[j] != '.'
    requires q < |c| && c[q] == '.' && forall j | q < j < |c| :: c[j] != '.'
    ensures p == q
  {
  }

  lemma CandidateShape(name: string, i: nat)
    requires i > 0
    ensures var e, c := Ext(name), Candidate(name, i);
            && |e| < |c| && c[|c| - |e| - 1] == ')' && c[|c| - |e|..] == e
            && forall j | |c| - |e| < j < |c| :: c[j] != '.'
  {
    StemExt(name);
    var e, c := Ext(name), Candidate(name, i);
    assert c == (Stem(name) + Counter(i)) + e;
    assert forall j | |c| - |e| < j < |c| :: c[j] == e[1..][j - (|c| - |e|) - 1];
  }

  /** A renamed copy that ends in a suffix with its one dot in front has that suffix as its extension. */
  lemma CandidateTail(name: string, i: nat, suffix: string)
    requires i > 0 && EndsWith(Candidate(name, i), suffix)
    requires |suffix| > 0 && suffix[0] == '.' && '.' !in suffix[1..] && suffix[|suffix| - 1] != ')'
    ensures Ext(name) == suffix
  {
    hide Ext, Candidate, Stem, EndsWith;
    StemExt(name);
    CandidateShape(name, i);
    var e, c := Ext(name), Candidate(name, i);
    SameTail(c, e, suffix);
  }

  lemma SameTail(c: string, e: string, suffix: string)
    requires |e| < |c| && c[|c| - |e| - 1] == ')' && c[|c| - |e|..] == e
    requires forall j | |c| - |e| < j < |c| :: c[j] != '.'
    requires e != "" ==> e[0] == '.'
    requires EndsWith(c, suffix) && |suffix| > 0 && suffix[0] == '.' && '.' !in suffix[1..] && suffix[|suffix| - 1] != ')'
    ensures e == suffix
  {
    var n := |c|;
    assert c[n - |suffix|..] == suffix;
    assert forall j | n - |suffix| < j < n :: c[j] == suffix[1..][j - (n - |suffix|) - 1];
    assert c[n - 1] == suffix[|suffix| - 1];
    assert e != "";
    LastDotUnique(c, n - |e|, n - |suffix|);
  }

  /** A string that ends in ".adrop-part.meta" ends in ".meta" after a 't'. */
  lemma MetaTail(c: string)
    requires EndsWith(c, PART + META)
    ensures EndsWith(c, META) && c[|c| - |META| - 1] == 't'
  {
    var n, pm := |c|, PART + META;
    assert c[n - |pm|..] == pm;
    assert c[n - |META|..] == c[n - |pm|..][|PART|..] == META;
    assert c[n - |META| - 1] == c[n - |pm|..][|PART| - 1] == 't';
  }

  /** No candidate of an unreserved name is reserved, or a temporary or a sidecar. */
  lemma UnreservedStaysUnreserved(name: string, i: nat)
    requires !Reserved(name)
    ensures !Reserved(Candidate(name, i)) && !TempName(Candidate(name, i))
  {
    hide Candidate, Ext, Stem, Legal, EndsWith;
    CandidateZero(name);
    if i > 0 {
      CandidateShape(name, i);
      var c := Candidate(name, i);
      if EndsWith(c, PART) {
        CandidateTail(name, i, PART);
        EndsWithExt(name);
      }
      if EndsWith(c, PART + META) {
        MetaTail(c);
        CandidateTail(name, i, META);
      }
    }
  }

  lemma EndsWithExt(name: string)
    ensures EndsWith(name, Ext(name))
  {
  }

  lemma {:induction false} ExtFromFinds(name: string, i: nat, q: nat)
    requires q < i <= |name| && name[q] == '.' && forall j | q < j < i :: name[j] != '.' && name[j] != '/'
    ensures ExtFrom(name, i) == q
    decreases i
  {
    if q < i - 1 { ExtFromFinds(name, i - 1, q); }
  }

  /** A name that ends in ".adrop-part" has exactly that as its extension. */
  lemma PartIsExtension(name: string)
    requires EndsWith(name, PART)
    ensures Ext(name) == PART && Stem(name) == name[..|name| - |PART|]
  {
    var q := |name| - |PART|;
    assert name[q..] == PART;
    assert forall j | 0 < j < |PART| :: PART[j] != '.' && PART[j] != '/';
    assert forall j | q <= j < |name| :: name[j] == PART[j - q];
    ExtFromFinds(name, |name|, q);
  }
}
