/**
 * The candidate slugs tried by the uniqueness search — `base`, `base-1`,
 * `base-2`, … — and the first of them outside a finite set of blocked slugs.
 *
 * PHP renders the counter in `$slug . '-' . ++$i` in decimal; NatToString is
 * that rendering, and its round trip through ParseDigits shows that distinct
 * counters give distinct candidates, which bounds the search.
 */
module SlugSuffix {

  /** The separator between the base slug and the counter. */
  const Separator := "-"

  predicate IsDigit(c: char) {
    '0' <= c <= '9'
  }

  function DigitChar(d: nat): (c: char)
    requires d < 10
    ensures IsDigit(c) && c as int - '0' as int == d
  {
    (('0' as int) + d) as char
  }

  /** The decimal rendering of `n`, without leading zeros. */
  function NatToString(n: nat): (s: string)
    ensures |s| >= 1
    ensures forall k :: 0 <= k < |s| ==> IsDigit(s[k])
    ensures n > 0 ==> s[0] != '0'
    decreases n
  {
    if n < 10 then [DigitChar(n)] else NatToString(n / 10) + [DigitChar(n % 10)]
  }

  /** The number a string of decimal digits denotes. */
  function ParseDigits(s: string): (n: nat)
    requires forall k :: 0 <= k < |s| ==> IsDigit(s[k])
  {
    if s == [] then 0
    else
      assert IsDigit(s[|s| - 1]);
      ParseDigits(s[..|s| - 1]) * 10 + (s[|s| - 1] as int - '0' as int)
  }

  /** Parsing the rendering of `n` gives back `n`. */
  lemma {:induction false} ParseNatToString(n: nat)
    ensures ParseDigits(NatToString(n)) == n
    decreases n
  {
    var s := NatToString(n);
    if n < 10 {
      assert s[..|s| - 1] == [];
    } else {
      assert s[..|s| - 1] == NatToString(n / 10);
      ParseNatToString(n / 10);
    }
  }

  /** Distinct counters render to distinct strings. */
  lemma NatToStringInjective(m: nat, n: nat)
    requires NatToString(m) == NatToString(n)
    ensures m == n
  {
    ParseNatToString(m);
    ParseNatToString(n);
  }

  /** The `i`-th candidate: the base slug itself, then `base-i` for i >= 1. */
  function Candidate(base: string, i: nat): (s: string)
    ensures i == 0 <==> s == base
    ensures i > 0 ==> |s| > |base| + 1 && s[..|base|] == base && s[|base|..|base| + 1] == Separator
  {
    if i == 0 then base else base + Separator + NatToString(i)
  }

  /** Each candidate is tried at most once: distinct counters give distinct candidates. */
  lemma CandidateInjective(base: string, i: nat, j: nat)
    requires Candidate(base, i) == Candidate(base, j)
    ensures i == j
  {
    if i > 0 && j > 0 {
      assert NatToString(i) == Candidate(base, i)[|base| + 1..];
      assert NatToString(j) == Candidate(base, j)[|base| + 1..];
      NatToStringInjective(i, j);
    }
  }

  /** The first `n` candidates, as a set. */
  function CandidatesBelow(base: string, n: nat): (r: set<string>)
    ensures forall s :: s in r ==> exists j :: 0 <= j < n && s == Candidate(base, j)
    ensures forall j :: 0 <= j < n ==> Candidate(base, j) in r
  {
    if n == 0 then {} else CandidatesBelow(base, n - 1) + {Candidate(base, n - 1)}
  }

  /** The first `n` candidates are `n` different strings. */
  lemma {:induction false} CandidatesBelowSize(base: string, n: nat)
    ensures |CandidatesBelow(base, n)| == n
  {
    if n > 0 {
      CandidatesBelowSize(base, n - 1);
      if Candidate(base, n - 1) in CandidatesBelow(base, n - 1) {
        var j :| 0 <= j < n - 1 && Candidate(base, n - 1) == Candidate(base, j);
        CandidateInjective(base, n - 1, j);
        assert false;
      }
    }
  }

  /** If the first `n` candidates are all blocked, at least `n` slugs are blocked. */
  lemma BlockedPrefixBound(base: string, blocked: set<string>, n: nat)
    requires forall j :: 0 <= j < n ==> Candidate(base, j) in blocked
    ensures n <= |blocked|
  {
    var tried := CandidatesBelow(base, n);
    CandidatesBelowSize(base, n);
    assert blocked == (blocked - tried) + tried;
  }

  /**
   * The search from counter `i` on, when every earlier candidate is
   * blocked: the least counter whose candidate is free. It never needs
   * more than |blocked| steps past the base slug.
   */
  function FreeSuffixFrom(base: string, blocked: set<string>, i: nat): (k: nat)
    requires forall j :: 0 <= j < i ==> Candidate(base, j) in blocked
    ensures i <= k <= |blocked|
    ensures Candidate(base, k) !in blocked
    ensures forall j :: 0 <= j < k ==> Candidate(base, j) in blocked
    decreases |blocked| - i
  {
    BlockedPrefixBound(base, blocked, i);
    if Candidate(base, i) !in blocked then i
    else
      BlockedPrefixBound(base, blocked, i + 1);
      FreeSuffixFrom(base, blocked, i + 1)
  }

  /** The counter of the slug the search accepts. */
  function UniqueSuffix(base: string, blocked: set<string>): (k: nat)
    ensures k <= |blocked|
    ensures Candidate(base, k) !in blocked
    ensures forall j :: 0 <= j < k ==> Candidate(base, j) in blocked
  {
    FreeSuffixFrom(base, blocked, 0)
  }

  /** The slug the search accepts: the first candidate that is not blocked. */
  function UniqueSlug(base: string, blocked: set<string>): (s: string)
    ensures s !in blocked
    ensures s == base || (|s| > |base| + 1 && s[..|base|] == base && s[|base|..|base| + 1] == Separator)
  {
    Candidate(base, UniqueSuffix(base, blocked))
  }

  /**
   * The accepted slug is free, every candidate before it is blocked, and
   * these two facts determine it: no other counter has both.
   */
  lemma UniqueSlugIsFirstFree(base: string, blocked: set<string>, k: nat)
    ensures UniqueSlug(base, blocked) !in blocked
    ensures UniqueSuffix(base, blocked) <= |blocked|
    ensures Candidate(base, k) !in blocked
              && (forall j :: 0 <= j < k ==> Candidate(base, j) in blocked)
            <==> k == UniqueSuffix(base, blocked)
  {
  }

  /** A base slug that is not blocked is accepted as it is, with no suffix. */
  lemma FreeBaseKept(base: string, blocked: set<string>)
    ensures base !in blocked ==> UniqueSlug(base, blocked) == base
  {
  }

  /** Base "foo" with "foo" and "foo-1" taken resolves to "foo-2". */
  lemma FooResolvesToFoo2()
    ensures UniqueSlug("foo", {"foo", "foo-1"}) == "foo-2"
  {
    var blocked := {"foo", "foo-1"};
    assert NatToString(1) == "1" && NatToString(2) == "2";
    assert Candidate("foo", 1) == "foo-1";
    assert Candidate("foo", 2) == "foo-2" && "foo-2" !in blocked;
    UniqueSlugIsFirstFree("foo", blocked, 2);
  }
}
