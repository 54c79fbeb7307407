/**
 * Turning a selection string ("all", "N", "N-M") or a resume point into
 * the ordered list of phase numbers a run walks (`run_phases` and
 * `resume_from`).
 */
module Plan {
  import opened Wrappers
  import opened Text
  import opened Phases

  /** The ValueError a selection can raise: a part `int()` rejects, or more than two parts. */
  datatype PlanError = InvalidLiteral(text: string) | TooManyValues

  /** `list(range(lo, hi + 1))`. */
  function Range(lo: int, hi: int): (r: seq<int>)
    ensures |r| == if lo <= hi then hi - lo + 1 else 0
    ensures forall i :: 0 <= i < |r| ==> r[i] == lo + i
    decreases hi - lo
  {
    if lo > hi then [] else [lo] + Range(lo + 1, hi)
  }

  /**
   * The plan of `run_phases(selection)`. `start, end = map(int, parts)`
   * converts the parts in order and stops after a third one.
   */
  function ResolvePlan(selection: string): (r: Result<seq<int>, PlanError>)
    ensures r.Ok? ==> StrictlyIncreasing(r.value)
  {
    if Lower(selection) == "all" then Ok(AllPhases())
    else if '-' in selection then
      var parts := Split(selection, '-');
      var start := ParseInt(parts[0]);
      var end := ParseInt(parts[1]);
      if start.None? then Err(InvalidLiteral(parts[0]))
      else if end.None? then Err(InvalidLiteral(parts[1]))
      else if |parts| > 2 then
        if ParseInt(parts[2]).None? then Err(InvalidLiteral(parts[2])) else Err(TooManyValues)
      else Ok(Range(start.value, end.value))
    else
      match ParseInt(selection)
      case Some(n) => Ok([n])
      case None => Err(InvalidLiteral(selection))
  }

  /** "all", in any mix of cases, selects every catalog phase in ascending order. */
  lemma AllSelection(selection: string)
    requires |selection| == 3 && selection[0] in "aA" && selection[1] in "lL" && selection[2] in "lL"
    ensures ResolvePlan(selection) == Ok(CatalogOrder)
  {
    LowerIsAll(selection);
  }

  lemma NoDashInDigits(s: string)
    requires AllDigits(s)
    ensures '-' !in s
  {
  }

  lemma DigitsAreNotAll(s: string)
    requires |s| > 0 && IsDigit(s[0])
    ensures Lower(s) != "all"
  {
    assert Lower(s)[0] == s[0];
  }

  /** "N-M" selects N..M inclusive, which is empty when N > M. */
  lemma {:induction false} RangeSelection(n: nat, m: nat)
    ensures ResolvePlan(NatToString(n) + "-" + NatToString(m)) == Ok(Range(n, m))
  {
    var a, b := NatToString(n), NatToString(m);
    var s := a + "-" + b;
    assert s[0] == a[0];
    DigitsAreNotAll(s);
    NoDashInDigits(a);
    NoDashInDigits(b);
    SplitAtFirst(a, b, '-');
    SplitNoSep(b, '-');
    assert Split(s, '-') == [a, b];
    ParseIntOfIntToString(n);
    ParseIntOfIntToString(m);
  }

  /** The selection "1-3" is the plan [1, 2, 3]. */
  lemma OneToThreeSelection()
    ensures ResolvePlan("1-3") == Ok([1, 2, 3])
  {
    assert NatToString(1) + "-" + NatToString(3) == "1-3";
    RangeSelection(1, 3);
    assert Range(1, 3) == [1, 2, 3];
  }

  /** A bare number N selects [N]. */
  lemma {:induction false} SingleSelection(n: nat)
    ensures ResolvePlan(NatToString(n)) == Ok([n])
  {
    var s := NatToString(n);
    DigitsAreNotAll(s);
    NoDashInDigits(s);
    ParseIntOfIntToString(n);
  }

  /** "N-M-K" is rejected: `int()` accepts every part, but there are three of them. */
  lemma {:induction false} ThreePartSelection(n: nat, m: nat, k: nat)
    ensures ResolvePlan(NatToString(n) + "-" + NatToString(m) + "-" + NatToString(k)) == Err(TooManyValues)
  {
    var a, b, c := NatToString(n), NatToString(m), NatToString(k);
    var s := a + "-" + b + "-" + c;
    assert s[0] == a[0];
    DigitsAreNotAll(s);
    NoDashInDigits(a);
    NoDashInDigits(b);
    NoDashInDigits(c);
    assert s == a + ['-'] + (b + ['-'] + c);
    SplitAtFirst(a, b + ['-'] + c, '-');
    SplitAtFirst(b, c, '-');
    SplitNoSep(c, '-');
    assert Split(s, '-') == [a, b, c];
    ParseIntOfIntToString(n);
    ParseIntOfIntToString(m);
    ParseIntOfIntToString(k);
  }

  /** A selection that is not "all", has no dash, and is not an integer is rejected as it stands. */
  lemma NonIntegerSelection(selection: string)
    requires Lower(selection) != "all" && '-' !in selection && ParseInt(selection).None?
    ensures ResolvePlan(selection) == Err(InvalidLiteral(selection))
  {
  }

  /** A first part of "a-b" that `int()` rejects is a ValueError naming it. */
  lemma {:induction false} NonIntegerFirstPart(a: string, b: string)
    requires '-' !in a && ParseInt(a).None?
    ensures ResolvePlan(a + "-" + b) == Err(InvalidLiteral(a))
  {
    var s := a + "-" + b;
    assert s == a + ['-'] + b;
    assert s[|a|] == '-';
    assert Lower(s)[|a|] == '-';
    SplitAtFirst(a, b, '-');
  }

  /** A well-formed first part followed by a second part `int()` rejects is a ValueError naming the second. */
  lemma {:induction false} NonIntegerSecondPart(a: string, b: string)
    requires '-' !in a + b && ParseInt(a).Some? && ParseInt(b).None?
    ensures ResolvePlan(a + "-" + b) == Err(InvalidLiteral(b))
  {
    var s := a + "-" + b;
    assert '-' !in a && '-' !in b by {
      assert forall c :: c in a ==> c in a + b;
      assert forall c :: c in b ==> c in a + b;
    }
    SplitNoSep(b, '-');
    SplitAtFirst(a, b, '-');
    assert s == a + ['-'] + b;
    var parts := Split(s, '-');
    assert parts == [a, b];
    assert s[|a|] == '-';
    assert Lower(s)[|a|] == '-';
    assert Lower(s) != "all";
    assert '-' in s;
  }

  /** A negative number is read as a range whose first part is empty, which `int()` rejects. */
  lemma {:induction false} NegativeSelection(n: int)
    requires n < 0
    ensures ResolvePlan(IntToString(n)) == Err(InvalidLiteral(""))
  {
    var s := IntToString(n);
    assert s == [] + ['-'] + s[1..];
    SplitAtFirst([], s[1..], '-');
    assert Lower(s)[0] == '-';
    assert ParseInt("") == None;
  }

  /** `[p for p in PHASES.keys() if p >= k]`, the list `resume_from` announces. */
  function AtLeast(ids: seq<int>, k: int): (r: seq<int>)
    ensures forall p :: p in r <==> p in ids && p >= k
  {
    if ids == [] then [] else (if ids[0] >= k then [ids[0]] else []) + AtLeast(ids[1..], k)
  }

  function Remaining(k: int): seq<int> {
    AtLeast(AllPhases(), k)
  }

  /** The plan `resume_from(k)` runs: the selection "k-7" built from k and the largest phase number. */
  function ResumePlan(k: int): Result<seq<int>, PlanError> {
    ResolvePlan(IntToString(k) + "-" + IntToString(MaxPhaseId()))
  }

  lemma {:induction false} AtLeastRange(lo: int, hi: int, k: int)
    ensures AtLeast(Range(lo, hi), k) == Range(if k > lo then k else lo, hi)
    decreases hi - lo
  {
    if lo <= hi {
      var r := Range(lo, hi);
      assert r[0] == lo && r[1..] == Range(lo + 1, hi);
      AtLeastRange(lo + 1, hi, k);
    }
  }

  /** Resuming from k runs the plan of the selection "k-7". */
  lemma ResumeIsSelection(k: int)
    ensures ResumePlan(k) == ResolvePlan(IntToString(k) + "-7")
  {
    var a := IntToString(k) + "-" + IntToString(MaxPhaseId());
    assert IntToString(MaxPhaseId()) == "7";
    assert a == IntToString(k) + "-7";
  }

  /** From k >= 0 the resumed plan is k..7. */
  lemma ResumeFromNatural(k: nat)
    ensures ResumePlan(k) == Ok(Range(k, MaxPhaseId()))
  {
    assert IntToString(k) == NatToString(k);
    RangeSelection(k, 7);
  }

  lemma RemainingIsRange(k: int)
    requires k >= 1
    ensures Remaining(k) == Range(k, 7)
  {
    assert CatalogOrder == Range(1, 7);
    AtLeastRange(1, 7, k);
  }

  /** From a catalog phase or beyond, the resumed plan is exactly the remaining catalog phases. */
  lemma ResumeRunsRemaining(k: int)
    requires k >= 1
    ensures ResumePlan(k) == Ok(Remaining(k))
  {
    ResumeFromNatural(k);
    RemainingIsRange(k);
  }

  /** From a negative k, "k-7" has an empty first part and the resume is rejected. */
  lemma {:induction false} ResumeFromNegative(k: int)
    requires k < 0
    ensures ResumePlan(k) == Err(InvalidLiteral(""))
  {
    var s := IntToString(k) + "-" + IntToString(MaxPhaseId());
    var rest := IntToString(k)[1..] + "-" + IntToString(MaxPhaseId());
    assert s == [] + ['-'] + rest;
    SplitAtFirst([], rest, '-');
    assert Lower(s)[0] == '-';
    assert ParseInt("") == None;
  }
}
