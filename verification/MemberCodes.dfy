/**
  The code minted for a person from their name.  `slugify` is not part of this model: its result, a
  text of letters, digits, `_` and `-`, is the input.
*/
module MemberCodes {
  import opened Text

  const CODE_MAX_LENGTH: nat := 32
  const FALLBACK_CODE_STEM := "persona"

  function Dotted(slug: string): string {
    seq(|slug|, i requires 0 <= i < |slug| => if slug[i] == '-' then '.' else slug[i])
  }

  function TrimLeft(s: string): string {
    if s != [] && s[0] == '.' then TrimLeft(s[1..]) else s
  }

  function TrimRight(s: string): string {
    if s != [] && s[|s| - 1] == '.' then TrimRight(s[..|s| - 1]) else s
  }

  function Stem(slug: string): string {
    var trimmed := TrimRight(TrimLeft(Dotted(slug)));
    var cut := if |trimmed| <= CODE_MAX_LENGTH then trimmed else trimmed[..CODE_MAX_LENGTH];
    if cut == "" then FALLBACK_CODE_STEM else cut
  }

  /** `s.split(".")[0]`. */
  function FirstPart(s: string): (r: string)
    ensures '.' !in r && r <= s
    ensures r == s <==> '.' !in s
  {
    if s == [] then [] else if s[0] == '.' then []
    else
      var rest := FirstPart(s[1..]);
      assert s == [s[0]] + s[1..];
      [s[0]] + rest
  }

  /** `s.split(".")[-1]`. */
  function LastPart(s: string): (r: string)
    ensures '.' !in r
  {
    if s == [] then [] else if s[|s| - 1] == '.' then []
    else LastPart(s[..|s| - 1]) + [s[|s| - 1]]
  }

  /** First and last token of the stem, joined by a dot when there is more than one. */
  function Base(slug: string): string {
    var stem := Stem(slug);
    if '.' in stem then FirstPart(stem) + "." + LastPart(stem) else stem
  }

  /** A text keeps what stands before its first dot and after its last. */
  lemma EndsAreKept(stem: string, first: string, between: string, last: string)
    requires '.' !in first && '.' !in last && stem == first + between + last
    requires between != "" && between[0] == '.' && between[|between| - 1] == '.'
    ensures '.' in stem && FirstPart(stem) == first && LastPart(stem) == last
  {
    assert stem == first + (between + last) && stem[|first|] == '.';
    SplitAtTheEnds(first, between + last);
    SplitAtTheLast(first + between, last);
  }

  function Dashes(n: nat): string {
    seq(n, _ => '-')
  }

  /** No separator at either end. */
  predicate Bare(name: string) {
    name != "" && { name[0], name[|name| - 1] } !! { '-', '.' }
  }

  lemma {:induction false} LeftIsTrimmed(n: nat, s: string)
    requires s == "" || s[0] != '.'
    ensures TrimLeft(Dotted(Dashes(n)) + s) == s
  {
    if n > 0 {
      assert (Dotted(Dashes(n)) + s)[1..] == Dotted(Dashes(n - 1)) + s;
      LeftIsTrimmed(n - 1, s);
    } else {
      assert Dotted(Dashes(0)) + s == s;
    }
  }

  lemma {:induction false} RightIsTrimmed(s: string, n: nat)
    requires s == "" || s[|s| - 1] != '.'
    ensures TrimRight(s + Dotted(Dashes(n))) == s
  {
    if n > 0 {
      var t := s + Dotted(Dashes(n));
      assert t[..|t| - 1] == s + Dotted(Dashes(n - 1));
      RightIsTrimmed(s, n - 1);
    } else {
      assert s + Dotted(Dashes(0)) == s;
    }
  }

  /** The dashes around a name go, those inside it become dots, and what is too long is cut. */
  lemma StemOfName(before: nat, name: string, after: nat)
    requires Bare(name)
    ensures var stem := Stem(Dashes(before) + name + Dashes(after));
            && stem <= Dotted(name) && |stem| == if |name| < CODE_MAX_LENGTH then |name| else CODE_MAX_LENGTH
  {
    var slug := Dashes(before) + name + Dashes(after);
    assert Dotted(slug) == Dotted(Dashes(before)) + (Dotted(name) + Dotted(Dashes(after)));
    LeftIsTrimmed(before, Dotted(name) + Dotted(Dashes(after)));
    RightIsTrimmed(Dotted(name), after);
  }

  /** A name that slugifies to nothing but dashes gets the fallback. */
  lemma StemOfNothing(n: nat)
    ensures Base(Dashes(n)) == FALLBACK_CODE_STEM
  {
    LeftIsTrimmed(n, "");
    assert Dotted(Dashes(n)) + "" == Dotted(Dashes(n));
    assert Stem(Dashes(n)) == FALLBACK_CODE_STEM;
  }

  /** A token of a name. */
  predicate Token(t: string) {
    t != "" && '-' !in t && '.' !in t
  }

  lemma DottedJoins(a: string, b: string)
    ensures Dotted(a + b) == Dotted(a) + Dotted(b)
  {
  }

  lemma TokensHaveNoDots(t: string)
    requires Token(t)
    ensures Dotted(t) == t && Bare(t)
  {
    assert t[0] in t && t[|t| - 1] in t;
  }

  lemma BaseOfName(slug: string, first: string, between: string, last: string)
    requires '.' !in first && '.' !in last && between != "" && between[0] == '.' && between[|between| - 1] == '.'
    requires Stem(slug) == first + between + last
    ensures Base(slug) == first + "." + last
  {
    EndsAreKept(Stem(slug), first, between, last);
  }

  /** From slug to base: first and last token with a dot between them, whatever stands in the middle. */
  lemma NameBecomesBase(before: nat, first: string, between: string, last: string, after: nat)
    requires Token(first) && Token(last) && |first + between + last| <= CODE_MAX_LENGTH
    requires between != "" && between[0] == '-' && between[|between| - 1] == '-'
    ensures Base(Dashes(before) + (first + between + last) + Dashes(after)) == first + "." + last
  {
    var name := first + between + last;
    TokensHaveNoDots(first);
    TokensHaveNoDots(last);
    assert name[0] == first[0] && name[|name| - 1] == last[|last| - 1];
    StemOfName(before, name, after);
    DottedJoins(first, between);
    DottedJoins(first + between, last);
    BaseOfName(Dashes(before) + name + Dashes(after), first, Dotted(between), last);
  }

  /** A name of one token is its own base. */
  lemma TokenIsItsBase(before: nat, token: string, after: nat)
    requires Token(token) && |token| <= CODE_MAX_LENGTH
    ensures Base(Dashes(before) + token + Dashes(after)) == token
  {
    TokensHaveNoDots(token);
    StemOfName(before, token, after);
  }

  lemma {:induction false} SplitAtTheEnds(first: string, rest: string)
    requires '.' !in first && rest != "" && rest[0] == '.'
    ensures FirstPart(first + rest) == first
  {
    if first == "" {
      assert first + rest == rest;
    } else {
      assert (first + rest)[1..] == first[1..] + rest;
      SplitAtTheEnds(first[1..], rest);
      assert first == [first[0]] + first[1..];
    }
  }

  lemma {:induction false} SplitAtTheLast(rest: string, last: string)
    requires '.' !in last && rest != "" && rest[|rest| - 1] == '.'
    ensures LastPart(rest + last) == last
  {
    if last == "" {
      assert rest + last == rest;
    } else {
      var s := rest + last;
      assert s[..|s| - 1] == rest + last[..|last| - 1];
      SplitAtTheLast(rest, last[..|last| - 1]);
    }
  }

  lemma BaseIsNotEmpty(slug: string)
    ensures Base(slug) != ""
  {
  }

  function Numbered(base: string, suffix: nat): string {
    base + PrintNumber(suffix)
  }

  lemma NumberedIsInjective(base: string, m: nat, n: nat)
    requires Numbered(base, m) == Numbered(base, n)
    ensures m == n
  {
    assert Numbered(base, m)[|base|..] == PrintNumber(m) && Numbered(base, n)[|base|..] == PrintNumber(n);
    PrintInjective(m, n);
  }

  /** The plain base and the suffixes from two up that were tried. */
  ghost function Tried(base: string, suffix: nat): set<string> {
    if suffix <= 2 then {base} else Tried(base, suffix - 1) + {Numbered(base, suffix - 1)}
  }

  lemma {:induction false} NotTriedYet(base: string, suffix: nat, n: nat)
    requires 2 <= suffix <= n
    ensures Numbered(base, n) !in Tried(base, suffix)
  {
    assert |Numbered(base, n)| > |base|;
    if suffix > 2 {
      NotTriedYet(base, suffix - 1, n);
      if Numbered(base, n) == Numbered(base, suffix - 1) {
        NumberedIsInjective(base, n, suffix - 1);
      }
    }
  }

  lemma {:induction false} TriedCount(base: string, suffix: nat)
    requires suffix >= 2
    ensures |Tried(base, suffix)| == suffix - 1
  {
    if suffix > 2 {
      TriedCount(base, suffix - 1);
      NotTriedYet(base, suffix - 1, suffix - 1);
    }
  }

  lemma {:induction false} SubsetIsNoLarger(small: set<string>, large: set<string>)
    requires small <= large
    ensures |small| <= |large|
    decreases |small|
  {
    if small != {} {
      var x :| x in small;
      SubsetIsNoLarger(small - {x}, large - {x});
    }
  }

  /** By pigeonhole, a suffix no higher than the number of taken codes plus one is free. */
  lemma TriedFits(base: string, suffix: nat, taken: set<string>)
    requires suffix >= 2 && Tried(base, suffix) <= taken
    ensures suffix <= |taken| + 1
  {
    TriedCount(base, suffix);
    SubsetIsNoLarger(Tried(base, suffix), taken);
  }

  /** What `allocate_code` can answer for a slug: the base, or the base with a number. */
  ghost predicate Allocated(code: string, slug: string) {
    code == Base(slug) || exists n: nat :: code == Numbered(Base(slug), n)
  }

  /**
    `allocate_code` over all codes in the table, although it reads only those that start with the base:
    the result is in none of them; it is the base when that is free, and otherwise the base with the
    lowest free number from two up, which is at most one more than the codes sharing the base.
  */
  method AllocateCode(codes: set<string>, slug: string) returns (code: string)
    ensures code !in codes && code != "" && Allocated(code, slug)
    ensures var base := Base(slug);
            if base !in codes then code == base
            else exists n: nat ::
                   && 2 <= n <= |set c | c in codes && StartsWith(c, base)| + 1
                   && code == Numbered(base, n)
                   && forall m :: 2 <= m < n ==> Numbered(base, m) in codes
  {
    var base := Base(slug);
    BaseIsNotEmpty(slug);
    var taken := set c | c in codes && StartsWith(c, base);
    if base !in taken {
      return base;
    }
    var suffix := 2;
    while Numbered(base, suffix) in taken
      invariant 2 <= suffix <= |taken| + 1
      invariant Tried(base, suffix) <= taken
      invariant forall n :: 2 <= n < suffix ==> Numbered(base, n) in codes
      decreases |taken| + 2 - suffix
    {
      suffix := suffix + 1;
      TriedFits(base, suffix, taken);
    }
    code := Numbered(base, suffix);
    assert code[..|base|] == base;
  }
}
