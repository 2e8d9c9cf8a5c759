/** Extraction of the issue key from a branch name (`Jira.getJIRAIssueKeys`).

    The branch name may start with ONE prefix segment — a word followed by
    `/`, such as `feature/` — and the key must sit right after it (or at
    position 0 when there is none): a letter, then letters or digits, then
    `-`, then one or more digits, followed by `-`, `/` or the end of the
    name. The project part is upper-cased; the number is kept as written.
    At most one key is returned and nothing later in the name is looked at.

    `Splits` below is the declarative form of that rule (which ways a branch
    name can be cut into prefix, project, number and rest); `Scan` is the
    left-to-right matcher, and `ScanComplete` shows the two agree. */
module KeyExtractor {
  import opened Chars
  import opened Wrappers
  import opened Issue

  // ---------------------------------------------------------------------
  // The declarative rule

  /** The three character classes the matcher scans runs of. */
  datatype Class = Word | Alnum | Digit

  predicate InClass(c: char, cls: Class) {
    match cls
    case Word => IsWordChar(c)
    case Alnum => IsAlnum(c)
    case Digit => IsDigit(c)
  }

  predicate AllIn(s: string, cls: Class) {
    forall k :: 0 <= k < |s| ==> InClass(s[k], cls)
  }

  /** A branch-type prefix segment such as `feature/`: one or more word
      characters followed by a single `/`. */
  predicate IsPrefixSegment(p: string) {
    |p| >= 2 && p[|p| - 1] == '/' && AllIn(p[..|p| - 1], Word)
  }

  /** The project part as written in the branch: a letter, then letters or digits. */
  predicate IsProjectPart(p: string) {
    |p| >= 1 && IsLetter(p[0]) && AllIn(p[1..], Alnum)
  }

  /** The number part: one or more digits. */
  predicate IsNumberPart(n: string) {
    |n| >= 1 && AllIn(n, Digit)
  }

  /** What may follow the key: nothing, or text starting with `-` or `/`. */
  predicate IsBoundary(rest: string) {
    rest == [] || rest[0] == '-' || rest[0] == '/'
  }

  /** One way of cutting a branch name around a key; `project` is as written. */
  datatype Split = Split(prefix: string, project: string, number: string, rest: string) {

    predicate Valid() {
      && (prefix == [] || IsPrefixSegment(prefix))
      && IsProjectPart(project)
      && IsNumberPart(number)
      && IsBoundary(rest)
    }

    function Join(): string {
      prefix + project + "-" + number + rest
    }

    /** The key this cut stands for: project upper-cased, number unchanged. */
    function Key(): IssueKey {
      IssueKey(Upper(project), number)
    }
  }

  /** `m` is a valid cut of `branch` around a key. */
  predicate Splits(branch: string, m: Split) {
    m.Valid() && m.Join() == branch
  }


  // ---------------------------------------------------------------------
  // The matcher

  /** The end of the longest run of `cls` characters starting at `i`. */
  function RunEnd(s: string, i: nat, cls: Class): (j: nat)
    requires i <= |s|
    ensures i <= j <= |s|
    ensures forall k :: i <= k < j ==> InClass(s[k], cls)
    ensures j == |s| || !InClass(s[j], cls)
    decreases |s| - i
  {
    if i < |s| && InClass(s[i], cls) then RunEnd(s, i + 1, cls) else i
  }

  /** A run of `cls` characters from `i` to `j` that cannot be extended
      is the one `RunEnd` finds. */
  lemma RunEndUnique(s: string, i: nat, j: nat, cls: Class)
    requires i <= j <= |s|
    requires forall k :: i <= k < j ==> InClass(s[k], cls)
    requires j == |s| || !InClass(s[j], cls)
    ensures RunEnd(s, i, cls) == j
  {
  }

  /** Where the key may start: after the single prefix segment if the name
      opens with one, otherwise at 0. */
  function KeyStart(s: string): (i: nat)
    ensures i <= |s|
    ensures i == 0 || IsPrefixSegment(s[..i])
  {
    var w := RunEnd(s, 0, Word);
    if 0 < w < |s| && s[w] == '/' then w + 1 else 0
  }

  /** Positions of a key found in a branch name `s`: the project part is
      `s[start..dash]`, the number part `s[dash + 1..end]`. */
  datatype Span = Span(start: nat, dash: nat, end: nat)

  /** The anchored match: key at `KeyStart(s)` followed by a boundary. */
  function Locate(s: string): (r: Option<Span>)
    ensures r.Some? ==> SpanParts(s, r.value)
  {
    var i := KeyStart(s);
    if i < |s| && IsLetter(s[i]) then
      var e := RunEnd(s, i + 1, Alnum);
      if e < |s| && s[e] == '-' then
        var d := RunEnd(s, e + 1, Digit);
        if e + 1 < d && (d == |s| || s[d] == '-' || s[d] == '/') then
          assert IsProjectPart(s[i..e]) by {
            assert s[i..e][1..] == s[i + 1..e];
          }
          Some(Span(i, e, d))
        else
          None
      else
        None
    else
      None
  }

  /** The positions of `sp` cut `s` into the parts of a valid `Split`. */
  predicate SpanParts(s: string, sp: Span) {
    && sp.start < sp.dash < sp.end <= |s|
    && (sp.start == 0 || IsPrefixSegment(s[..sp.start]))
    && IsProjectPart(s[sp.start..sp.dash])
    && s[sp.dash] == '-'
    && IsNumberPart(s[sp.dash + 1..sp.end])
    && IsBoundary(s[sp.end..])
  }

  /** Cutting a name at four positions and joining the parts back, with the
      `-` at the third, gives the name. */
  lemma CutJoin(s: string, a: nat, b: nat, c: nat)
    requires a <= b < c <= |s| && s[b] == '-'
    ensures s[..a] + s[a..b] + "-" + s[b + 1..c] + s[c..] == s
  {
    assert s[b + 1..] == s[b + 1..c] + s[c..];
    assert s[b..] == [s[b]] + s[b + 1..];
    assert s[a..] == s[a..b] + s[b..];
    assert s == s[..a] + s[a..];
  }

  /** The cut the matcher finds, if any. */
  function Scan(s: string): (r: Option<Split>)
    ensures r.Some? ==> Splits(s, r.value)
  {
    match Locate(s)
    case None => None
    case Some(sp) =>
      CutJoin(s, sp.start, sp.dash, sp.end);
      Some(Split(s[..sp.start], s[sp.start..sp.dash], s[sp.dash + 1..sp.end], s[sp.end..]))
  }

  // ---------------------------------------------------------------------
  // Completeness of the matcher

  /** Where the parts of a cut sit in the joined name. */
  lemma JoinSlices(m: Split)
    ensures var s, i := m.Join(), |m.prefix|;
      var e := i + |m.project|;
      var d := e + 1 + |m.number|;
      && |s| == d + |m.rest|
      && s[..i] == m.prefix
      && s[i..e] == m.project
      && s[e] == '-'
      && s[e + 1..d] == m.number
      && s[d..] == m.rest
  {
    var s := m.Join();
    assert s == m.prefix + (m.project + (['-'] + (m.number + m.rest)));
  }

  /** A name opening with a prefix segment has its key start right after it. */
  lemma KeyStartAfterPrefix(s: string, p: string)
    requires IsPrefixSegment(p) && p <= s
    ensures KeyStart(s) == |p|
  {
    var w := |p| - 1;
    assert forall k :: 0 <= k < w ==> InClass(s[k], Word) by {
      forall k | 0 <= k < w ensures InClass(s[k], Word) {
        assert s[k] == p[..w][k];
      }
    }
    assert s[w] == p[w];
    RunEndUnique(s, 0, w, Word);
  }

  /** A name opening with a project part and `-` has its key start at 0. */
  lemma KeyStartAtZero(s: string, proj: string)
    requires IsProjectPart(proj) && |proj| < |s| && s[..|proj|] == proj && s[|proj|] == '-'
    ensures KeyStart(s) == 0
  {
    assert forall k :: 0 <= k < |proj| ==> InClass(s[k], Word) by {
      forall k | 0 <= k < |proj| ensures InClass(s[k], Word) {
        assert s[k] == proj[k];
        if k > 0 { assert proj[k] == proj[1..][k - 1]; }
      }
    }
    RunEndUnique(s, 0, |proj|, Word);
  }

  /** The matcher locates the parts of every valid cut. */
  lemma LocateComplete(s: string, m: Split)
    requires Splits(s, m)
    ensures Locate(s) == Some(Span(|m.prefix|, |m.prefix| + |m.project|, |m.prefix| + |m.project| + 1 + |m.number|))
  {
    var i := |m.prefix|;
    var e := i + |m.project|;
    var d := e + 1 + |m.number|;
    SplitKeyStart(s, m);
    SplitProject(s, m);
    SplitNumber(s, m);
    LocateAt(s, i, e, d);
  }

  lemma SplitKeyStart(s: string, m: Split)
    requires Splits(s, m)
    ensures KeyStart(s) == |m.prefix|
  {
    JoinSlices(m);
    if m.prefix == [] {
      KeyStartAtZero(s, m.project);
    } else {
      KeyStartAfterPrefix(s, m.prefix);
    }
  }

  lemma SplitProject(s: string, m: Split)
    requires Splits(s, m)
    ensures var i, e := |m.prefix|, |m.prefix| + |m.project|;
      i < e < |s| && IsLetter(s[i]) && RunEnd(s, i + 1, Alnum) == e && s[e] == '-'
  {
    JoinSlices(m);
    ProjectRun(s, |m.prefix|, m.project);
  }

  lemma SplitNumber(s: string, m: Split)
    requires Splits(s, m)
    ensures var e := |m.prefix| + |m.project|;
      var d := e + 1 + |m.number|;
      && e + 1 < d <= |s| && RunEnd(s, e + 1, Digit) == d
      && (d == |s| || s[d] == '-' || s[d] == '/')
  {
    JoinSlices(m);
    var d := |m.prefix| + |m.project| + 1 + |m.number|;
    NumberRun(s, d - |m.number|, m.number);
    if m.rest != [] {
      assert s[d] == m.rest[0];
    }
  }

  /** `Locate` unfolded at known run ends. */
  lemma LocateAt(s: string, i: nat, e: nat, d: nat)
    requires KeyStart(s) == i < |s| && IsLetter(s[i])
    requires i < e < |s| && RunEnd(s, i + 1, Alnum) == e && s[e] == '-'
    requires e + 1 < d <= |s| && RunEnd(s, e + 1, Digit) == d
    requires d == |s| || s[d] == '-' || s[d] == '/'
    ensures Locate(s) == Some(Span(i, e, d))
  {
  }

  /** Every valid cut of a branch name is the one the matcher finds: the
      matcher misses no key, and a branch name has at most one key. */
  lemma {:induction false} ScanComplete(s: string, m: Split)
    requires Splits(s, m)
    ensures Scan(s) == Some(m)
  {
    var i := |m.prefix|;
    var e := i + |m.project|;
    var d := e + 1 + |m.number|;
    LocateComplete(s, m);
    ScanAt(s, Span(i, e, d));
    JoinSlices(m);
  }

  /** The cut read off the located positions. */
  lemma ScanAt(s: string, sp: Span)
    requires Locate(s) == Some(sp)
    ensures Scan(s) == Some(Split(s[..sp.start], s[sp.start..sp.dash], s[sp.dash + 1..sp.end], s[sp.end..]))
  {
  }

  lemma ProjectRun(s: string, i: nat, proj: string)
    requires IsProjectPart(proj) && i + |proj| < |s| && s[i..i + |proj|] == proj && s[i + |proj|] == '-'
    ensures IsLetter(s[i]) && RunEnd(s, i + 1, Alnum) == i + |proj|
  {
    var e := i + |proj|;
    assert s[i] == proj[0];
    assert forall k :: i + 1 <= k < e ==> InClass(s[k], Alnum) by {
      forall k | i + 1 <= k < e ensures InClass(s[k], Alnum) {
        assert s[k] == proj[1..][k - i - 1];
      }
    }
    RunEndUnique(s, i + 1, e, Alnum);
  }

  lemma NumberRun(s: string, i: nat, num: string)
    requires IsNumberPart(num) && i + |num| <= |s| && s[i..i + |num|] == num
    requires i + |num| == |s| || s[i + |num|] == '-' || s[i + |num|] == '/'
    ensures RunEnd(s, i, Digit) == i + |num|
  {
    assert forall k :: i <= k < i + |num| ==> InClass(s[k], Digit) by {
      forall k | i <= k < i + |num| ensures InClass(s[k], Digit) {
        assert s[k] == num[k - i];
      }
    }
    RunEndUnique(s, i, i + |num|, Digit);
  }

  // ---------------------------------------------------------------------
  // The operation

  /** The key at the start of a branch name, if there is one. */
  function ExtractKey(branch: string): (r: Option<IssueKey>)
    ensures r.Some? ==> r.value.Valid()
    ensures r.Some? ==> exists m :: Splits(branch, m) && r.value == m.Key()
    ensures r.None? ==> forall m :: !Splits(branch, m)
  {
    match Scan(branch)
    case None =>
      NoCutWhenScanFails(branch);
      None
    case Some(m) =>
      CutKeyValid(m);
      Some(m.Key())
  }

  /** When the matcher finds nothing, no valid cut exists. */
  lemma NoCutWhenScanFails(branch: string)
    requires Scan(branch).None?
    ensures forall m :: !Splits(branch, m)
  {
    forall m | Splits(branch, m) ensures false {
      ScanComplete(branch, m);
    }
  }

  /** The key of a valid cut is canonical. */
  lemma CutKeyValid(m: Split)
    requires m.Valid()
    ensures m.Key().Valid()
  {
    assert forall j :: 1 <= j < |m.project| ==> IsAlnum(m.project[j]) by {
      forall j | 1 <= j < |m.project| ensures IsAlnum(m.project[j]) {
        assert m.project[j] == m.project[1..][j - 1];
      }
    }
  }

  /** `Jira.getJIRAIssueKeys`: zero or one canonical key strings. */
  function GetIssueKeys(branch: string): (keys: seq<string>)
    ensures |keys| <= 1
    ensures keys == [] <==> forall m :: !Splits(branch, m)
    ensures forall j :: 0 <= j < |keys| ==> exists k: IssueKey :: k.Valid() && keys[j] == k.Text()
  {
    match ExtractKey(branch)
    case None => []
    case Some(k) => [k.Text()]
  }

  // ---------------------------------------------------------------------
  // Properties

  /** A key at the anchor (position 0, or right after one prefix segment)
      followed by `-`, `/` or the end is returned, upper-cased, as the only
      element; whatever comes after the boundary plays no part. */
  lemma KeyAtAnchorExtracted(branch: string, m: Split)
    requires Splits(branch, m)
    ensures ExtractKey(branch) == Some(m.Key())
    ensures GetIssueKeys(branch) == [Upper(m.project) + "-" + m.number]
  {
    ScanComplete(branch, m);
  }

  /** Extraction from the canonical text of a key gives back that key. */
  lemma {:induction false} CanonicalRoundTrip(k: IssueKey)
    requires k.Valid()
    ensures ExtractKey(k.Text()) == Some(k)
    ensures GetIssueKeys(k.Text()) == [k.Text()]
  {
    CanonicalWithPrefixRoundTrip([], k, []);
    assert [] + k.Text() + [] == k.Text();
  }

  /** The same, after any prefix segment and before any boundary text. */
  lemma {:induction false} CanonicalWithPrefixRoundTrip(prefix: string, k: IssueKey, rest: string)
    requires prefix == [] || IsPrefixSegment(prefix)
    requires k.Valid() && IsBoundary(rest)
    ensures ExtractKey(prefix + k.Text() + rest) == Some(k)
    ensures GetIssueKeys(prefix + k.Text() + rest) == [k.Text()]
  {
    var m := Split(prefix, k.project, k.number, rest);
    assert m.project[1..] == k.project[1..];
    assert m.Join() == prefix + k.Text() + rest;
    UpperFixesNoLower(k.project);
    ScanComplete(m.Join(), m);
  }

  /** Only ONE prefix segment is skipped: after two, nothing is found. */
  lemma {:induction false} SecondPrefixNotSkipped(p1: string, p2: string, s: string)
    requires IsPrefixSegment(p1) && IsPrefixSegment(p2)
    ensures GetIssueKeys(p1 + p2 + s) == []
  {
    var b := p1 + p2 + s;
    var i, w := |p1|, |p1| + |p2| - 1;
    assert p1 <= b;
    KeyStartAfterPrefix(b, p1);
    assert b[i..w + 1] == p2;
    assert b[w] == '/';
    if IsLetter(b[i]) {
      var e := RunEnd(b, i + 1, Alnum);
      if e < w {
        assert b[e] == p2[..|p2| - 1][e - i];
      }
    }
    assert Locate(b) == None;
  }

  /** Whatever follows the `-` or `/` after the key is never looked at:
      appending text there does not change the result. */
  lemma {:induction false} TextAfterBoundaryIgnored(m: Split, tail: string)
    requires m.Valid() && m.rest != []
    ensures GetIssueKeys(m.Join() + tail) == GetIssueKeys(m.Join())
  {
    var m' := Split(m.prefix, m.project, m.number, m.rest + tail);
    assert m'.Join() == m.Join() + tail;
    ScanComplete(m.Join(), m);
    ScanComplete(m'.Join(), m');
  }

  /** A word and `-` at the anchor that are not followed by a digit rule out
      a key, whatever key-shaped text comes later (`fix/login-protocol-ES-43`). */
  lemma {:induction false} FreeTextBeforeKeyIgnored(prefix: string, word: string, c: char, tail: string)
    requires prefix == [] || IsPrefixSegment(prefix)
    requires IsProjectPart(word) && !IsDigit(c)
    ensures GetIssueKeys(prefix + word + "-" + [c] + tail) == []
  {
    var b := prefix + word + "-" + [c] + tail;
    var i, e := |prefix|, |prefix| + |word|;
    assert b[..i] == prefix;
    assert b[i..e] == word;
    assert b[e] == '-' && b[e + 1] == c;
    if prefix == [] {
      KeyStartAtZero(b, word);
    } else {
      KeyStartAfterPrefix(b, prefix);
    }
    ProjectRun(b, i, word);
    NoDigitAfterDash(b, i, e);
  }

  /** A name whose anchored project part runs into something other than
      `-` yields nothing. */
  lemma NoDashAfterProject(s: string, i: nat, e: nat)
    requires KeyStart(s) == i < e <= |s|
    requires RunEnd(s, i + 1, Alnum) == e && (e == |s| || s[e] != '-')
    ensures GetIssueKeys(s) == []
  {
    ExtractNone(s);
  }

  /** A name whose anchored project part and `-` are not followed by a
      digit yields nothing. */
  lemma NoDigitAfterDash(s: string, i: nat, e: nat)
    requires KeyStart(s) == i < e && e + 1 <= |s|
    requires RunEnd(s, i + 1, Alnum) == e && s[e] == '-'
    requires e + 1 == |s| || !IsDigit(s[e + 1])
    ensures GetIssueKeys(s) == []
  {
    RunEndUnique(s, e + 1, e + 1, Digit);
    ExtractNone(s);
  }

  /** Upper-casing the whole branch name does not change the key found:
      matching is case-insensitive and the project part is normalised. */
  lemma {:induction false} CaseInsensitive(branch: string)
    ensures ExtractKey(Upper(branch)) == ExtractKey(branch)
  {
    var u := Upper(branch);
    LocateUpper(branch);
    match Locate(branch)
    case None =>
      ExtractNone(branch);
      ExtractNone(u);
    case Some(sp) =>
      UpperKeyParts(branch, sp);
      ExtractAt(branch, sp);
      ExtractAt(u, sp);
  }

  /** At the located positions, the upper-cased name holds the upper-cased
      project part and the unchanged number part. */
  lemma UpperKeyParts(s: string, sp: Span)
    requires Locate(s) == Some(sp)
    ensures Upper(Upper(s)[sp.start..sp.dash]) == Upper(s[sp.start..sp.dash])
    ensures Upper(s)[sp.dash + 1..sp.end] == s[sp.dash + 1..sp.end]
  {
    var proj, num := s[sp.start..sp.dash], s[sp.dash + 1..sp.end];
    UpperSlice(s, sp.start, sp.dash);
    UpperIdempotent(proj);
    UpperSlice(s, sp.dash + 1, sp.end);
    assert IsNumberPart(num);
    UpperFixesNoLower(num);
  }

  /** Nothing located, nothing extracted. */
  lemma ExtractNone(s: string)
    requires Locate(s).None?
    ensures ExtractKey(s).None?
  {
  }

  /** The key extracted, read off the positions the matcher locates. */
  lemma ExtractAt(s: string, sp: Span)
    requires Locate(s) == Some(sp)
    ensures ExtractKey(s) == Some(IssueKey(Upper(s[sp.start..sp.dash]), s[sp.dash + 1..sp.end]))
  {
  }

  /** The matcher finds the key at the same positions in a name and in its
      upper-cased form. */
  lemma LocateUpper(s: string)
    ensures Locate(Upper(s)) == Locate(s)
  {
    var u := Upper(s);
    forall k, cls | 0 <= k <= |s|
      ensures RunEnd(u, k, cls) == RunEnd(s, k, cls)
    {
      RunEndUpper(s, k, cls);
    }
    LocateAgree(s, u);
  }

  /** Two names of the same length with the same letters, `-` and `/`
      positions and the same runs are matched at the same positions. */
  lemma LocateAgree(s: string, t: string)
    requires |s| == |t|
    requires forall k :: 0 <= k < |s| ==> (IsLetter(s[k]) <==> IsLetter(t[k]))
    requires forall k :: 0 <= k < |s| ==> (s[k] == '-' <==> t[k] == '-') && (s[k] == '/' <==> t[k] == '/')
    requires forall k, cls :: 0 <= k <= |s| ==> RunEnd(s, k, cls) == RunEnd(t, k, cls)
    ensures Locate(s) == Locate(t)
  {
    assert RunEnd(s, 0, Word) == RunEnd(t, 0, Word);
    assert KeyStart(s) == KeyStart(t);
  }

  /** Runs are found at the same places in a name and its upper-cased form. */
  lemma {:induction false} RunEndUpper(s: string, i: nat, cls: Class)
    requires i <= |s|
    ensures RunEnd(Upper(s), i, cls) == RunEnd(s, i, cls)
    decreases |s| - i
  {
    if i < |s| && InClass(s[i], cls) {
      RunEndUpper(s, i + 1, cls);
    }
  }
}
