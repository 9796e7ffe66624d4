/** Minted business codes: project codes, task codes inside a project, and what happens to retired ones. */
module Codes {
  import opened Text

  const PROJECT_CODE_PREFIX := "PRJ-"
  const PROJECT_CODE_DIGITS: nat := 2
  const TASK_CODE_INFIX := "-T"
  const TASK_CODE_DIGITS: nat := 2

  /** The number the mint reads out of a code; anything it cannot read counts as zero. */
  function NumberIn(prefix: string, code: string): nat {
    var suffix := RemovePrefix(code, prefix);
    if IsNumber(suffix) then ReadNumber(suffix) else 0
  }

  function Highest(prefix: string, codes: seq<string>): nat {
    if codes == [] then 0 else
      var before := Highest(prefix, codes[..|codes| - 1]);
      var last := NumberIn(prefix, codes[|codes| - 1]);
      if before < last then last else before
  }

  function Minted(prefix: string, digits: nat, n: nat): string {
    prefix + ZeroFill(PrintNumber(n), digits)
  }

  /** Reading back a minted code gives its number, whatever the padding. */
  lemma MintedReadsBack(prefix: string, digits: nat, n: nat)
    ensures NumberIn(prefix, Minted(prefix, digits, n)) == n
  {
    var tail := ZeroFill(PrintNumber(n), digits);
    assert (prefix + tail)[..|prefix|] == prefix && (prefix + tail)[|prefix|..] == tail;
    ReadZeroFilled(PrintNumber(n), digits);
    ReadPrinted(n);
  }

  lemma {:induction false} HighestBounds(prefix: string, codes: seq<string>, code: string)
    requires code in codes
    ensures NumberIn(prefix, code) <= Highest(prefix, codes)
  {
    if code != codes[|codes| - 1] {
      var i :| 0 <= i < |codes| && codes[i] == code;
      assert codes[..|codes| - 1][i] == code;
      HighestBounds(prefix, codes[..|codes| - 1], code);
    }
  }

  lemma {:induction false} HighestIsOneOfThem(prefix: string, codes: seq<string>)
    ensures Highest(prefix, codes) == 0
            || exists i :: 0 <= i < |codes| && NumberIn(prefix, codes[i]) == Highest(prefix, codes)
  {
    if codes != [] {
      var front := codes[..|codes| - 1];
      HighestIsOneOfThem(prefix, front);
      if Highest(prefix, codes) != NumberIn(prefix, codes[|codes| - 1]) && Highest(prefix, codes) != 0 {
        var i :| 0 <= i < |front| && NumberIn(prefix, front[i]) == Highest(prefix, codes);
        assert codes[i] == front[i];
      }
    }
  }

  /** The codes are taken as the query returns them; the next one is above every one of them. */
  method NextCode(prefix: string, digits: nat, codes: seq<string>) returns (code: string)
    ensures code == Minted(prefix, digits, Highest(prefix, codes) + 1)
    ensures code !in codes
    ensures forall c :: c in codes ==> NumberIn(prefix, c) < NumberIn(prefix, code)
  {
    var highest := 0;
    for i := 0 to |codes|
      invariant highest == Highest(prefix, codes[..i])
    {
      assert codes[..i + 1][..i] == codes[..i];
      var suffix := RemovePrefix(codes[i], prefix);
      if IsNumber(suffix) {
        highest := if highest < ReadNumber(suffix) then ReadNumber(suffix) else highest;
      }
    }
    assert codes[..|codes|] == codes;
    code := prefix + ZeroFill(PrintNumber(highest + 1), digits);
    MintedReadsBack(prefix, digits, highest + 1);
    forall c | c in codes ensures NumberIn(prefix, c) < NumberIn(prefix, code) {
      HighestBounds(prefix, codes, c);
    }
  }

  // --- Runs of creates, archives and deletes -----------------------------------------------------

  /** Archiving keeps a row and its code; deleting, which the product never does, would drop it. */
  datatype Op = Create | Archive(code: string) | Delete(code: string)

  /** The codes of the rows there are, and every code ever issued, oldest first. */
  datatype Shelf = Shelf(present: seq<string>, issued: seq<string>)

  function Without(codes: seq<string>, code: string): (r: seq<string>)
    ensures forall c :: c in r <==> c in codes && c != code
  {
    if codes == [] then []
    else Without(codes[..|codes| - 1], code) + (if codes[|codes| - 1] == code then [] else [codes[|codes| - 1]])
  }

  function Next(prefix: string, digits: nat, codes: seq<string>): string {
    Minted(prefix, digits, Highest(prefix, codes) + 1)
  }

  function After(prefix: string, digits: nat, shelf: Shelf, op: Op): Shelf {
    match op
    case Create =>
      var code := Next(prefix, digits, shelf.present);
      Shelf(shelf.present + [code], shelf.issued + [code])
    case Archive(_) => shelf
    case Delete(code) => shelf.(present := Without(shelf.present, code))
  }

  function Run(prefix: string, digits: nat, ops: seq<Op>): Shelf {
    if ops == [] then Shelf([], [])
    else After(prefix, digits, Run(prefix, digits, ops[..|ops| - 1]), ops[|ops| - 1])
  }

  ghost predicate IsMinted(prefix: string, digits: nat, code: string) {
    exists n: nat :: n >= 1 && code == Minted(prefix, digits, n)
  }

  /** The issued codes carry exactly the numbers from one to the highest, and what is present was issued. */
  ghost predicate Gapless(prefix: string, digits: nat, shelf: Shelf) {
    && (forall n :: 1 <= n <= Highest(prefix, shelf.issued) ==> Minted(prefix, digits, n) in shelf.issued)
    && (forall c :: c in shelf.issued ==> IsMinted(prefix, digits, c))
    && (forall c :: c in shelf.present ==> c in shelf.issued)
  }

  lemma HighestOfMore(prefix: string, digits: nat, codes: seq<string>, n: nat)
    ensures Highest(prefix, codes + [Minted(prefix, digits, n)])
            == if Highest(prefix, codes) < n then n else Highest(prefix, codes)
  {
    var code := Minted(prefix, digits, n);
    assert (codes + [code])[..|codes|] == codes;
    MintedReadsBack(prefix, digits, n);
  }

  lemma PresentBelowIssued(prefix: string, digits: nat, shelf: Shelf)
    requires Gapless(prefix, digits, shelf)
    ensures Highest(prefix, shelf.present) <= Highest(prefix, shelf.issued)
  {
    HighestIsOneOfThem(prefix, shelf.present);
    if Highest(prefix, shelf.present) != 0 {
      var i :| 0 <= i < |shelf.present| && NumberIn(prefix, shelf.present[i]) == Highest(prefix, shelf.present);
      assert shelf.present[i] in shelf.issued;
      HighestBounds(prefix, shelf.issued, shelf.present[i]);
    }
  }

  lemma CreateKeepsGapless(prefix: string, digits: nat, shelf: Shelf)
    requires Gapless(prefix, digits, shelf)
    ensures Gapless(prefix, digits, After(prefix, digits, shelf, Create))
  {
    var n := Highest(prefix, shelf.present) + 1;
    var code := Minted(prefix, digits, n);
    PresentBelowIssued(prefix, digits, shelf);
    HighestOfMore(prefix, digits, shelf.issued, n);
    var t := After(prefix, digits, shelf, Create);
    assert t == Shelf(shelf.present + [code], shelf.issued + [code]);
    forall k | 1 <= k <= Highest(prefix, t.issued) ensures Minted(prefix, digits, k) in t.issued {
      assert k <= Highest(prefix, shelf.issued) || k == n;
      assert code in t.issued;
    }
    forall c | c in t.issued ensures IsMinted(prefix, digits, c) {
      assert c in shelf.issued || c == code;
    }
  }

  lemma {:induction false} RunsAreGapless(prefix: string, digits: nat, ops: seq<Op>)
    ensures Gapless(prefix, digits, Run(prefix, digits, ops))
  {
    if ops != [] {
      RunsAreGapless(prefix, digits, ops[..|ops| - 1]);
      if ops[|ops| - 1].Create? {
        CreateKeepsGapless(prefix, digits, Run(prefix, digits, ops[..|ops| - 1]));
      }
    }
  }

  /**
    Exactly when the next code was already issued: when the highest number ever issued is no longer
    present.  Deriving the number from the maximum present does not, by itself, protect a deleted code.
  */
  lemma ReusedExactlyWhen(prefix: string, digits: nat, ops: seq<Op>)
    ensures var shelf := Run(prefix, digits, ops);
            Next(prefix, digits, shelf.present) in shelf.issued
            <==> Highest(prefix, shelf.present) < Highest(prefix, shelf.issued)
  {
    var shelf := Run(prefix, digits, ops);
    var n := Highest(prefix, shelf.present) + 1;
    RunsAreGapless(prefix, digits, ops);
    MintedReadsBack(prefix, digits, n);
    if Highest(prefix, shelf.present) < Highest(prefix, shelf.issued) {
      assert 1 <= n <= Highest(prefix, shelf.issued);
    }
    if Minted(prefix, digits, n) in shelf.issued {
      HighestBounds(prefix, shelf.issued, Minted(prefix, digits, n));
    }
  }

  predicate DeletesNothing(ops: seq<Op>) {
    forall i :: 0 <= i < |ops| ==> !ops[i].Delete?
  }

  /** Creates and archives alone never issue a code twice: every create raises the maximum. */
  lemma {:induction false} CodesAreNeverReused(prefix: string, digits: nat, ops: seq<Op>)
    requires DeletesNothing(ops)
    ensures var shelf := Run(prefix, digits, ops);
            && shelf.present == shelf.issued
            && (forall i, j :: 0 <= i < j < |shelf.issued| ==>
                  NumberIn(prefix, shelf.issued[i]) < NumberIn(prefix, shelf.issued[j]))
            && Next(prefix, digits, shelf.present) !in shelf.issued
  {
    var shelf := Run(prefix, digits, ops);
    ReusedExactlyWhen(prefix, digits, ops);
    if ops != [] {
      var before := Run(prefix, digits, ops[..|ops| - 1]);
      CodesAreNeverReused(prefix, digits, ops[..|ops| - 1]);
      if ops[|ops| - 1].Create? {
        var n := Highest(prefix, before.present) + 1;
        MintedReadsBack(prefix, digits, n);
        forall i | 0 <= i < |before.issued| ensures NumberIn(prefix, before.issued[i]) < n {
          HighestBounds(prefix, before.issued, before.issued[i]);
        }
      }
    }
  }

  lemma {:induction false} WithoutAbsent(codes: seq<string>, code: string)
    requires code !in codes
    ensures Without(codes, code) == codes
  {
    if codes != [] {
      WithoutAbsent(codes[..|codes| - 1], code);
    }
  }

  /** Whatever was created before, deleting the newest row makes the next create issue its code again. */
  lemma DeletingTheNewestReusesItsCode(prefix: string, digits: nat, ops: seq<Op>)
    requires DeletesNothing(ops)
    ensures var newest := Next(prefix, digits, Run(prefix, digits, ops).present);
            var shelf := Run(prefix, digits, ops + [Create] + [Delete(newest)]);
            newest in shelf.issued && newest !in shelf.present && Next(prefix, digits, shelf.present) == newest
  {
    var before := Run(prefix, digits, ops);
    var newest := Next(prefix, digits, before.present);
    var created := ops + [Create];
    var deleted := created + [Delete(newest)];
    CodesAreNeverReused(prefix, digits, ops);
    assert created[..|ops|] == ops && deleted[..|created|] == created;
    assert Run(prefix, digits, created) == Shelf(before.present + [newest], before.issued + [newest]);
    assert (before.present + [newest])[..|before.present|] == before.present;
    WithoutAbsent(before.present, newest);
    assert Run(prefix, digits, deleted) == Shelf(before.present, before.issued + [newest]);
    assert (before.issued + [newest])[|before.issued|] == newest;
  }

  // --- Codes of different projects -----------------------------------------------------------------

  predicate AllDigits(s: string) {
    forall i :: 0 <= i < |s| ==> IsDigit(s[i])
  }

  lemma NotInTheDigits(a: string, x: char, d: string, b: string, y: char, e: string)
    requires a + [x] + d == b + [y] + e && AllDigits(d) && !IsDigit(y)
    ensures |b| <= |a|
  {
    var whole := a + [x] + d;
    assert (b + [y] + e)[|b|] == y && |whole| == |b| + 1 + |e|;
    forall i | |a| < i < |whole| ensures IsDigit(whole[i]) {
      assert whole[i] == d[i - |a| - 1];
    }
    assert whole[|b|] == y;
  }

  /** A text that ends in a non-digit and then digits splits there in one way. */
  lemma LastNonDigit(a: string, x: char, d: string, b: string, y: char, e: string)
    requires a + [x] + d == b + [y] + e
    requires !IsDigit(x) && !IsDigit(y) && AllDigits(d) && AllDigits(e)
    ensures a == b && x == y && d == e
  {
    var whole := a + [x] + d;
    NotInTheDigits(a, x, d, b, y, e);
    NotInTheDigits(b, y, e, a, x, d);
    assert a == whole[..|a|] && b == whole[..|b|];
    assert whole[|a|] == x && whole[|b|] == y;
    assert d == whole[|a| + 1..] && e == whole[|b| + 1..];
  }

  function TaskPrefix(project: string): string {
    project + TASK_CODE_INFIX
  }

  /** A task code names its project and its number: no two projects ever mint the same one. */
  lemma TaskCodesDecompose(p: string, m: nat, q: string, n: nat)
    requires Minted(TaskPrefix(p), TASK_CODE_DIGITS, m) == Minted(TaskPrefix(q), TASK_CODE_DIGITS, n)
    ensures p == q && m == n
  {
    var d, e := ZeroFill(PrintNumber(m), TASK_CODE_DIGITS), ZeroFill(PrintNumber(n), TASK_CODE_DIGITS);
    var a, b := p + ['-'], q + ['-'];
    assert TaskPrefix(p) + d == a + ['T'] + d && TaskPrefix(q) + e == b + ['T'] + e;
    LastNonDigit(a, 'T', d, b, 'T', e);
    assert p == a[..|a| - 1] && q == b[..|b| - 1];
    MintedReadsBack(TaskPrefix(p), TASK_CODE_DIGITS, m);
    MintedReadsBack(TaskPrefix(p), TASK_CODE_DIGITS, n);
  }

  /** Every task's code was minted for the project it belongs to. */
  ghost predicate MintedPerProject(tasks: map<string, seq<string>>) {
    forall p :: p in tasks ==> forall c :: c in tasks[p] ==> MintedFor(p, c)
  }

  ghost predicate MintedFor(project: string, code: string) {
    exists n: nat :: code == Minted(TaskPrefix(project), TASK_CODE_DIGITS, n)
  }

  /** Reading one project's codes is enough: the next one is new in the whole table. */
  lemma NextTaskCodeIsNewEverywhere(tasks: map<string, seq<string>>, p: string, q: string)
    requires MintedPerProject(tasks) && p in tasks && q in tasks
    ensures Next(TaskPrefix(p), TASK_CODE_DIGITS, tasks[p]) !in tasks[q]
    ensures MintedFor(p, Next(TaskPrefix(p), TASK_CODE_DIGITS, tasks[p]))
  {
    var n := Highest(TaskPrefix(p), tasks[p]) + 1;
    var code := Minted(TaskPrefix(p), TASK_CODE_DIGITS, n);
    MintedReadsBack(TaskPrefix(p), TASK_CODE_DIGITS, n);
    if code in tasks[q] {
      assert MintedFor(q, code);
      var m: nat :| code == Minted(TaskPrefix(q), TASK_CODE_DIGITS, m);
      TaskCodesDecompose(p, n, q, m);
      HighestBounds(TaskPrefix(p), tasks[p], code);
    }
  }
}
