/** Slug allocation for public profile addresses: a full name is normalised
    into a base slug, and the first of `base`, `base-1`, `base-2`, ... that no
    profile uses yet is taken. */
module Slug {
  import opened Common
  import opened Seqs

  /** The characters `[a-z0-9]` of the normalising regular expression. */
  predicate Alnum(c: char) {
    'a' <= c <= 'z' || '0' <= c <= '9'
  }

  /** Every character is a lower-case letter, a digit or a hyphen. */
  ghost predicate SlugAlphabet(s: string) {
    forall i :: 0 <= i < |s| ==> Alnum(s[i]) || s[i] == '-'
  }

  ghost predicate NoDoubleHyphen(s: string) {
    forall i, j :: 0 <= i && j == i + 1 && j < |s| ==> !(s[i] == '-' && s[j] == '-')
  }

  /** The shape of every base slug. */
  ghost predicate WellFormedBase(s: string) {
    && SlugAlphabet(s)
    && NoDoubleHyphen(s)
    && (s != [] ==> s[0] != '-' && s[|s| - 1] != '-')
  }

  /** `.replace(/[^a-z0-9]+/g, '-')`: every maximal run of characters outside
      `[a-z0-9]` becomes one hyphen. The result ends in a hyphen exactly when
      the input ends in such a character. */
  function Squash(s: string): (r: string)
    ensures (r != [] && r[|r| - 1] == '-') <==> (s != [] && !Alnum(s[|s| - 1]))
    ensures r == [] <==> s == []
  {
    if s == [] then []
    else
      var init, c := s[..|s| - 1], s[|s| - 1];
      var r := Squash(init);
      if Alnum(c) then r + [c]
      else if init != [] && !Alnum(init[|init| - 1]) then r
      else r + ['-']
  }

  /** The squashed string contains only `a-z`, `0-9` and `-`, and never two
      hyphens in a row. */
  lemma {:induction false} SquashShape(s: string)
    ensures SlugAlphabet(Squash(s)) && NoDoubleHyphen(Squash(s))
  {
    if s != [] {
      var init, c := s[..|s| - 1], s[|s| - 1];
      SquashShape(init);
      SquashLast(s);
      if Alnum(c) {
        SnocKeepsShape(Squash(init), c);
      } else if !(init != [] && !Alnum(init[|init| - 1])) {
        SnocKeepsShape(Squash(init), '-');
      }
    }
  }

  /** Appending a letter or digit, or a hyphen after anything but a hyphen,
      keeps the slug shape. */
  lemma SnocKeepsShape(r: string, c: char)
    requires SlugAlphabet(r) && NoDoubleHyphen(r)
    requires Alnum(c) || (c == '-' && (r == [] || r[|r| - 1] != '-'))
    ensures SlugAlphabet(r + [c]) && NoDoubleHyphen(r + [c])
  {
    var t := r + [c];
    forall i, j | 0 <= i && j == i + 1 && j < |t| ensures !(t[i] == '-' && t[j] == '-') {
      if j < |r| {
        assert t[i] == r[i] && t[j] == r[j];
      }
    }
  }

  /** `.replace(/^-+/, '')` */
  function TrimLeading(s: string): (r: string)
    ensures |r| <= |s| && r == s[|s| - |r|..]
    ensures r != [] ==> r[0] != '-'
    ensures forall i :: 0 <= i < |s| - |r| ==> s[i] == '-'
  {
    if s != [] && s[0] == '-' then TrimLeading(s[1..]) else s
  }

  /** `.replace(/-+$/, '')` */
  function TrimTrailing(s: string): (r: string)
    ensures |r| <= |s| && r == s[..|r|]
    ensures r != [] ==> r[|r| - 1] != '-'
    ensures forall i :: |r| <= i < |s| ==> s[i] == '-'
  {
    if s != [] && s[|s| - 1] == '-' then TrimTrailing(s[..|s| - 1]) else s
  }

  /** The base slug `generateSlug` derives from a full name. */
  function BaseSlug(fullName: string): string {
    TrimTrailing(TrimLeading(Squash(ToLower(fullName))))
  }

  /** A contiguous piece of a string keeps its alphabet and has no double
      hyphen if the string has none. */
  lemma SliceKeepsShape(s: string, lo: nat, hi: nat)
    requires lo <= hi <= |s|
    requires SlugAlphabet(s) && NoDoubleHyphen(s)
    ensures SlugAlphabet(s[lo..hi]) && NoDoubleHyphen(s[lo..hi])
  {
    var t := s[lo..hi];
    forall i, j | 0 <= i && j == i + 1 && j < |t| ensures !(t[i] == '-' && t[j] == '-') {
      assert t[i] == s[lo + i] && t[j] == s[lo + j];
    }
  }

  /** The base slug contains only `a-z`, `0-9` and `-`, never two hyphens in
      a row, and neither starts nor ends with a hyphen. */
  lemma {:induction false} BaseSlugWellFormed(fullName: string)
    ensures WellFormedBase(BaseSlug(fullName))
  {
    var sq := Squash(ToLower(fullName));
    SquashShape(ToLower(fullName));
    var lead := TrimLeading(sq);
    TrimLeadingShape(sq);
    var trail := TrimTrailing(lead);
    TrimTrailingShape(lead);
    if trail != [] {
      assert trail[0] == lead[0];
    }
  }

  lemma TrimLeadingShape(s: string)
    requires SlugAlphabet(s) && NoDoubleHyphen(s)
    ensures SlugAlphabet(TrimLeading(s)) && NoDoubleHyphen(TrimLeading(s))
  {
    SliceKeepsShape(s, |s| - |TrimLeading(s)|, |s|);
  }

  lemma TrimTrailingShape(s: string)
    requires SlugAlphabet(s) && NoDoubleHyphen(s)
    ensures SlugAlphabet(TrimTrailing(s)) && NoDoubleHyphen(TrimTrailing(s))
  {
    SliceKeepsShape(s, 0, |TrimTrailing(s)|);
  }

  /** The letters and digits of a string, in order. */
  function AlnumPart(s: string): string {
    Filter(s, Alnum)
  }

  lemma AlnumPartSnoc(s: string, c: char)
    ensures AlnumPart(s + [c]) == AlnumPart(s) + (if Alnum(c) then [c] else [])
  {
    FilterConcat(s, [c], Alnum);
  }

  lemma AlnumPartLast(s: string)
    requires s != []
    ensures AlnumPart(s) == AlnumPart(s[..|s| - 1]) + (if Alnum(s[|s| - 1]) then [s[|s| - 1]] else [])
  {
    assert s == s[..|s| - 1] + [s[|s| - 1]];
    AlnumPartSnoc(s[..|s| - 1], s[|s| - 1]);
  }

  /** The last step of `Squash`, as the three cases of its definition. */
  lemma SquashLast(s: string)
    requires s != []
    ensures var init, c := s[..|s| - 1], s[|s| - 1];
            Squash(s) == if Alnum(c) then Squash(init) + [c]
                         else if init != [] && !Alnum(init[|init| - 1]) then Squash(init)
                         else Squash(init) + ['-']
  {
  }

  lemma {:induction false} SquashKeepsAlnum(s: string)
    ensures AlnumPart(Squash(s)) == AlnumPart(s)
  {
    if s != [] {
      var init, c := s[..|s| - 1], s[|s| - 1];
      var r := Squash(init);
      SquashLast(s);
      SquashKeepsAlnum(init);
      AlnumPartLast(s);
      if Alnum(c) {
        AlnumPartSnoc(r, c);
      } else if !(init != [] && !Alnum(init[|init| - 1])) {
        AlnumPartSnoc(r, '-');
      }
    }
  }

  lemma {:induction false} TrimLeadingKeepsAlnum(s: string)
    ensures AlnumPart(TrimLeading(s)) == AlnumPart(s)
  {
    if s != [] && s[0] == '-' {
      TrimLeadingKeepsAlnum(s[1..]);
    }
  }

  lemma {:induction false} TrimTrailingKeepsAlnum(s: string)
    ensures AlnumPart(TrimTrailing(s)) == AlnumPart(s)
  {
    if s != [] && s[|s| - 1] == '-' {
      var init := s[..|s| - 1];
      assert s == init + ['-'];
      FilterConcat(init, ['-'], Alnum);
      TrimTrailingKeepsAlnum(init);
    }
  }

  /** Normalising loses no letter or digit of the lower-cased name and adds
      none: only the separators between them change. */
  lemma BaseSlugKeepsAlnum(fullName: string)
    ensures AlnumPart(BaseSlug(fullName)) == AlnumPart(ToLower(fullName))
  {
    var sq := Squash(ToLower(fullName));
    SquashKeepsAlnum(ToLower(fullName));
    TrimLeadingKeepsAlnum(sq);
    TrimTrailingKeepsAlnum(TrimLeading(sq));
  }

  lemma {:induction false} SquashFixesWellFormed(s: string)
    requires SlugAlphabet(s) && NoDoubleHyphen(s)
    ensures Squash(s) == s
  {
    if s != [] {
      var init, c := s[..|s| - 1], s[|s| - 1];
      SliceKeepsShape(s, 0, |s| - 1);
      SquashFixesWellFormed(init);
      SquashLastKept(s);
      assert s == init + [c];
    }
  }

  /** On a string of slug shape, `Squash` keeps the last character. */
  lemma SquashLastKept(s: string)
    requires s != [] && SlugAlphabet(s) && NoDoubleHyphen(s)
    ensures Squash(s) == Squash(s[..|s| - 1]) + [s[|s| - 1]]
  {
    var init, c := s[..|s| - 1], s[|s| - 1];
    SquashLast(s);
    if |s| >= 2 {
      assert s[|s| - 2] == init[|init| - 1];
      assert !(s[|s| - 2] == '-' && s[|s| - 1] == '-');
    }
  }

  /** Normalising a base slug gives it back unchanged. */
  lemma {:induction false} BaseSlugIdempotent(fullName: string)
    ensures BaseSlug(BaseSlug(fullName)) == BaseSlug(fullName)
  {
    var b := BaseSlug(fullName);
    BaseSlugWellFormed(fullName);
    assert ToLower(b) == b;
    SquashFixesWellFormed(b);
    assert b == [] || b[0] != '-';
    assert TrimLeading(b) == b;
  }

  /** `${baseSlug}-${counter}` */
  function Candidate(base: string, k: nat): string {
    base + "-" + NatToString(k)
  }

  /** The `k`-th slug `generateSlug` probes: the base itself, then the
      numbered candidates. */
  function Probe(base: string, k: nat): (r: string)
    ensures |r| >= |base| && r[..|base|] == base
  {
    if k == 0 then base else Candidate(base, k)
  }

  /** Different probes are different strings, so the probing never revisits a
      slug. */
  lemma {:induction false} ProbeInjective(base: string, i: nat, j: nat)
    ensures Probe(base, i) == Probe(base, j) ==> i == j
  {
    if Probe(base, i) == Probe(base, j) && i != 0 && j != 0 {
      var a, b := Probe(base, i), Probe(base, j);
      assert a[|base| + 1..] == NatToString(i);
      assert b[|base| + 1..] == NatToString(j);
      NatToStringInjective(i, j);
    }
  }

  /** The first `n` probes, as a set. */
  ghost function ProbesBelow(base: string, n: nat): set<string> {
    if n == 0 then {} else ProbesBelow(base, n - 1) + {Probe(base, n - 1)}
  }

  /** The `n`-th probe is none of the earlier ones. */
  lemma {:induction false} NextProbeUnseen(base: string, n: nat, m: nat)
    requires m <= n
    ensures Probe(base, n) !in ProbesBelow(base, m)
  {
    if m > 0 {
      NextProbeUnseen(base, n, m - 1);
      ProbeInjective(base, m - 1, n);
    }
  }

  /** One more taken probe: the probes seen so far stay inside `taken`, and
      the part of `taken` not yet probed shrinks. */
  lemma ProbeStep(base: string, n: nat, taken: set<string>)
    requires Probe(base, n) in taken && ProbesBelow(base, n) <= taken
    ensures ProbesBelow(base, n + 1) <= taken
    ensures taken - ProbesBelow(base, n + 1) < taken - ProbesBelow(base, n)
  {
    NextProbeUnseen(base, n, n);
    assert ProbesBelow(base, n + 1) == ProbesBelow(base, n) + {Probe(base, n)};
    assert Probe(base, n) in taken - ProbesBelow(base, n);
  }

  /** `slug` is the first probe of `base` that is not in `taken`. */
  ghost predicate IsFirstFree(base: string, taken: set<string>, slug: string) {
    && slug !in taken
    && exists k: nat :: slug == Probe(base, k)
         && forall j: nat :: j < k ==> Probe(base, j) in taken
  }

  /** `slug` is what `generateSlug(fullName)` picks when `taken` is in use. */
  ghost predicate IsAllocatedSlug(fullName: string, taken: set<string>, slug: string) {
    IsFirstFree(BaseSlug(fullName), taken, slug)
  }

  /** A free probe whose predecessors are all taken is the first free one. */
  lemma FirstFreeFound(base: string, taken: set<string>, k: nat)
    requires Probe(base, k) !in taken
    requires forall j: nat :: j < k ==> Probe(base, j) in taken
    ensures IsFirstFree(base, taken, Probe(base, k))
  {
  }

  /** The allocation is determined by the base and the slugs in use. */
  lemma FirstFreeUnique(base: string, taken: set<string>, s1: string, s2: string)
    requires IsFirstFree(base, taken, s1) && IsFirstFree(base, taken, s2)
    ensures s1 == s2
  {
    var k1: nat :| s1 == Probe(base, k1) && forall j: nat :: j < k1 ==> Probe(base, j) in taken;
    var k2: nat :| s2 == Probe(base, k2) && forall j: nat :: j < k2 ==> Probe(base, j) in taken;
    assert k1 == k2;
  }

  /** `generateSlug(fullName)` against the set of slugs already in use. */
  method GenerateSlug(fullName: string, taken: set<string>) returns (slug: string)
    ensures IsAllocatedSlug(fullName, taken, slug)
  {
    var baseSlug := BaseSlug(fullName);
    slug := FirstFreeProbe(baseSlug, taken);
  }

  /** The probing loop of `generateSlug`: the base if that is free, else
      `base-k` for the smallest `k >= 1` with `base-k` free. */
  method FirstFreeProbe(baseSlug: string, taken: set<string>) returns (slug: string)
    ensures IsFirstFree(baseSlug, taken, slug)
  {
    slug := baseSlug;
    var counter: nat := 1;
    while slug in taken
      invariant counter >= 1
      invariant slug == Probe(baseSlug, counter - 1)
      invariant forall j: nat :: j < counter - 1 ==> Probe(baseSlug, j) in taken
      invariant ProbesBelow(baseSlug, counter - 1) <= taken
      decreases taken - ProbesBelow(baseSlug, counter - 1)
    {
      ProbeStep(baseSlug, counter - 1, taken);
      slug := Candidate(baseSlug, counter);
      counter := counter + 1;
    }
    FirstFreeFound(baseSlug, taken, counter - 1);
  }

  /** The first free probe is the base itself when the base is free, and a
      numbered candidate otherwise. */
  lemma FirstFreeShape(base: string, taken: set<string>, slug: string)
    requires IsFirstFree(base, taken, slug)
    ensures base !in taken ==> slug == base
    ensures base in taken ==> exists k: nat :: k >= 1 && slug == Candidate(base, k)
  {
    var k: nat :| slug == Probe(base, k) && forall j: nat :: j < k ==> Probe(base, j) in taken;
    if k > 0 {
      assert Probe(base, 0) == base;
    }
  }

  /** Every character is a letter or a digit. */
  ghost predicate AllAlnum(w: string) {
    forall i :: 0 <= i < |w| ==> Alnum(w[i])
  }

  /** Appending a letter or digit appends it to the squashed string. */
  lemma SquashSnocAlnum(s: string, c: char)
    requires Alnum(c)
    ensures Squash(s + [c]) == Squash(s) + [c]
  {
    var q := s + [c];
    assert q[..|q| - 1] == s;
    SquashLast(q);
  }

  /** Appending a run of alphanumerics appends it to the squashed string. */
  lemma {:induction false} SquashAppendWord(p: string, w: string)
    requires AllAlnum(w)
    ensures Squash(p + w) == Squash(p) + w
  {
    if w == [] {
      assert p + w == p;
    } else {
      var w', c := w[..|w| - 1], w[|w| - 1];
      assert AllAlnum(w') && Alnum(c);
      SquashAppendWord(p, w');
      assert p + w == (p + w') + [c];
      SquashSnocAlnum(p + w', c);
      assert (Squash(p) + w') + [c] == Squash(p) + w;
    }
  }

  /** Two words of letters and digits with one separator between them become
      the two words joined by a hyphen. */
  lemma SquashTwoWords(a: string, sep: char, b: string)
    requires a != [] && AllAlnum(a) && AllAlnum(b)
    requires !Alnum(sep)
    ensures Squash(a + [sep] + b) == a + ['-'] + b
  {
    SquashAppendWord([], a);
    assert [] + a == a;
    assert (a + [sep])[..|a|] == a;
    SquashAppendWord(a + [sep], b);
  }

  /** "John Doe" normalises to `john-doe`. */
  lemma JohnDoeBase()
    ensures BaseSlug("John Doe") == "john-doe"
  {
    assert ToLower("John Doe") == "john" + [' '] + "doe";
    SquashTwoWords("john", ' ', "doe");
    assert "john" + ['-'] + "doe" == "john-doe";
  }

  /** With nothing taken a base is its own first free probe; with only the
      base taken, the first free probe is the base with `-1`. */
  lemma SameNameTwice(base: string)
    ensures IsFirstFree(base, {}, base)
    ensures IsFirstFree(base, {base}, Candidate(base, 1))
  {
    FirstFreeFound(base, {}, 0);
    assert Candidate(base, 1) != base by {
      assert |Candidate(base, 1)| > |base|;
    }
    forall j: nat | j < 1
      ensures Probe(base, j) in {base}
    {
      assert j == 0;
    }
    FirstFreeFound(base, {base}, 1);
  }

  /** The first "John Doe" gets `john-doe`; with that taken, the second gets
      `john-doe-1`. */
  lemma JohnDoeTwice()
    ensures IsAllocatedSlug("John Doe", {}, "john-doe")
    ensures IsAllocatedSlug("John Doe", {"john-doe"}, "john-doe-1")
  {
    JohnDoeBase();
    JohnDoeFirstCandidate();
    SameNameTwice("john-doe");
  }

  /** The first numbered candidate for `john-doe`. */
  lemma JohnDoeFirstCandidate()
    ensures Candidate("john-doe", 1) == "john-doe-1"
  {
    assert NatToString(1) == "1";
  }
}
