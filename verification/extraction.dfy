/** The two shapes every report extractor of the system is built from.

    1. A priority-ordered fallback chain: several regular expressions are
       tried in turn and the first one that matches decides the field.
    2. A line-by-line scan in which a field is written only while it is
       still falsy in Python's sense (`if not summary[field]: ...`), so the
       first line yielding a truthy value wins, and a parsed zero does not
       latch.

    A regular expression (with the conversion of its capture group) is
    modelled as an abstract `Matcher`: a function from the searched text to
    the captured value, `None` when `re.search` finds nothing. */
module Extraction {
  import opened Text

  type Matcher<T> = string -> Option<T>

  // ---------------------------------------------------------------------
  // Priority-ordered fallback chains
  // ---------------------------------------------------------------------

  /** The first present value of a priority-ordered list of candidates. */
  function FirstSome<T>(os: seq<Option<T>>): Option<T> {
    if os == [] then None else if os[0].Some? then os[0] else FirstSome(os[1..])
  }

  /** The earliest present candidate wins, whatever follows it. */
  lemma {:induction false} FirstSomeEarliest<T>(os: seq<Option<T>>, k: nat)
    requires k < |os| && os[k].Some?
    requires forall j :: 0 <= j < k ==> os[j].None?
    ensures FirstSome(os) == os[k]
  {
    if k > 0 {
      FirstSomeEarliest(os[1..], k - 1);
    }
  }

  /** Nothing present, nothing found; and whatever is found is the value of
      some candidate all of whose predecessors are absent. */
  lemma {:induction false} FirstSomeCases<T>(os: seq<Option<T>>)
    ensures FirstSome(os).None? <==> forall j :: 0 <= j < |os| ==> os[j].None?
    ensures FirstSome(os).Some? ==>
      exists k :: 0 <= k < |os| && os[k] == FirstSome(os) &&
        forall j :: 0 <= j < k ==> os[j].None?
  {
    if os != [] && os[0].None? {
      FirstSomeCases(os[1..]);
      if FirstSome(os).Some? {
        var k :| 0 <= k < |os[1..]| && os[1..][k] == FirstSome(os[1..]) &&
          forall j :: 0 <= j < k ==> os[1..][j].None?;
        assert os[k + 1] == FirstSome(os);
        assert forall j :: 0 <= j < k + 1 ==> os[j].None? by {
          forall j | 0 <= j < k + 1 ensures os[j].None? {
            if j > 0 { assert os[j] == os[1..][j - 1]; }
          }
        }
      }
      assert (forall j :: 0 <= j < |os[1..]| ==> os[1..][j].None?) ==>
        (forall j :: 0 <= j < |os| ==> os[j].None?) by {
        if forall j :: 0 <= j < |os[1..]| ==> os[1..][j].None? {
          forall j | 0 <= j < |os| ensures os[j].None? {
            if j > 0 { assert os[j] == os[1..][j - 1]; }
          }
        }
      }
    }
  }

  /** The results of a list of patterns searched in one text, in order. */
  function Results<T>(ps: seq<Matcher<T>>, text: string): (r: seq<Option<T>>)
    ensures |r| == |ps|
    ensures forall i :: 0 <= i < |ps| ==> r[i] == ps[i](text)
  {
    seq(|ps|, i requires 0 <= i < |ps| => ps[i](text))
  }

  /** The value captured by the first pattern of `ps` that matches `text`. */
  function FirstMatch<T>(ps: seq<Matcher<T>>, text: string): Option<T> {
    FirstSome(Results(ps, text))
  }

  /** `for pattern in patterns: match = re.search(pattern, text);
      if match: ...; break` -- the loop every pattern list of the
      extractors is searched with. */
  method SearchPatterns<T>(ps: seq<Matcher<T>>, text: string) returns (found: Option<T>)
    ensures found.None? <==> forall j :: 0 <= j < |ps| ==> ps[j](text).None?
    ensures found.Some? ==>
      exists k :: 0 <= k < |ps| && found == ps[k](text) &&
        forall j :: 0 <= j < k ==> ps[j](text).None?
    ensures found == FirstMatch(ps, text)
  {
    found := None;
    for i := 0 to |ps|
      invariant forall j :: 0 <= j < i ==> ps[j](text).None?
    {
      var m := ps[i](text);
      if m.Some? {
        found := m;
        FirstSomeEarliest(Results(ps, text), i);
        return;
      }
    }
    FirstSomeCases(Results(ps, text));
  }

  // ---------------------------------------------------------------------
  // Line scans that write a field only while it is falsy
  // ---------------------------------------------------------------------

  /** Python truthiness of the parsed values. */
  predicate IntTruthy(x: int) { x != 0 }
  predicate NatTruthy(x: nat) { x != 0 }
  predicate RealTruthy(x: real) { x != 0.0 }
  predicate StrTruthy(x: string) { x != "" }

  predicate IsTruthy<T>(o: Option<T>, truthy: T -> bool) {
    o.Some? && truthy(o.value)
  }

  /** `if not field: (candidate from this line); if candidate: field = candidate` */
  function Latch<T>(cur: Option<T>, truthy: T -> bool, cand: Option<T>): Option<T> {
    if IsTruthy(cur, truthy) then cur else if cand.Some? then cand else cur
  }

  /** `if not summary[field]: ... if candidate: summary[field] = candidate` */
  method LatchField<T>(cur: Option<T>, truthy: T -> bool, cand: Option<T>) returns (r: Option<T>)
    ensures r == Latch(cur, truthy, cand)
    ensures IsTruthy(cur, truthy) ==> r == cur
    ensures !IsTruthy(cur, truthy) && cand.Some? ==> r == cand
  {
    r := cur;
    if !IsTruthy(cur, truthy) && cand.Some? {
      r := cand;
    }
  }

  /** The field after scanning lines whose candidates are `cands`, starting
      from `None`. */
  function LatchAll<T>(cands: seq<Option<T>>, truthy: T -> bool): Option<T> {
    if cands == [] then None
    else Latch(LatchAll(cands[..|cands| - 1], truthy), truthy, cands[|cands| - 1])
  }

  /** The candidates a per-line extractor yields for each line. */
  function Cands<T>(lines: seq<string>, c: string -> Option<T>): (r: seq<Option<T>>)
    ensures |r| == |lines|
    ensures forall i :: 0 <= i < |lines| ==> r[i] == c(lines[i])
  {
    seq(|lines|, i requires 0 <= i < |lines| => c(lines[i]))
  }

  lemma CandsSnoc<T>(lines: seq<string>, c: string -> Option<T>, i: nat)
    requires i < |lines|
    ensures Cands(lines[..i + 1], c) == Cands(lines[..i], c) + [c(lines[i])]
  {
  }

  /** The last present candidate. */
  function LastSome<T>(os: seq<Option<T>>): Option<T> {
    if os == [] then None
    else if os[|os| - 1].Some? then os[|os| - 1] else LastSome(os[..|os| - 1])
  }

  /** Without any truthy candidate the field ends as the last present
      (falsy) candidate, or absent: a parsed zero never latches. */
  lemma {:induction false} LatchAllNoTruthy<T>(cands: seq<Option<T>>, truthy: T -> bool)
    requires forall j :: 0 <= j < |cands| ==> !IsTruthy(cands[j], truthy)
    ensures LatchAll(cands, truthy) == LastSome(cands)
    ensures !IsTruthy(LatchAll(cands, truthy), truthy)
  {
    if cands != [] {
      LatchAllNoTruthy(cands[..|cands| - 1], truthy);
    }
  }

  /** The first line whose candidate is truthy decides the field, whatever
      the later lines hold. */
  lemma {:induction false} LatchAllFirstTruthy<T>(cands: seq<Option<T>>, truthy: T -> bool, k: nat)
    requires k < |cands| && IsTruthy(cands[k], truthy)
    requires forall j :: 0 <= j < k ==> !IsTruthy(cands[j], truthy)
    ensures LatchAll(cands, truthy) == cands[k]
  {
    var n := |cands| - 1;
    if n == k {
      LatchAllNoTruthy(cands[..n], truthy);
    } else {
      LatchAllFirstTruthy(cands[..n], truthy, k);
    }
  }

  /** Whatever the field ends as is one of the candidates. */
  lemma {:induction false} LatchAllFromCands<T>(cands: seq<Option<T>>, truthy: T -> bool)
    ensures LatchAll(cands, truthy).Some? ==>
      exists j :: 0 <= j < |cands| && cands[j] == LatchAll(cands, truthy)
  {
    if cands != [] {
      var n := |cands| - 1;
      LatchAllFromCands(cands[..n], truthy);
      if LatchAll(cands, truthy) != cands[n] {
        var j :| 0 <= j < n && cands[..n][j] == LatchAll(cands[..n], truthy);
        assert cands[j] == LatchAll(cands, truthy);
      }
    }
  }
}
