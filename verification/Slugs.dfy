/** The unique-slug search of `register` and `oauth_login` (app/api/v1/endpoints/auth.py). */
module Slugs {

  function Digit(n: nat): char
    requires n < 10
  {
    (n + '0' as int) as char
  }

  /** Decimal digits, as an f-string prints them. */
  function Decimal(n: nat): (digits: string)
    ensures digits != "" && (|digits| > 1 <==> n >= 10)
  {
    if n < 10 then [Digit(n)] else Decimal(n / 10) + [Digit(n % 10)]
  }

  /** The family of names the loop tries: base, base-1, base-2, ... */
  function Candidate(base: string, counter: nat): string {
    if counter == 0 then base else base + "-" + Decimal(counter)
  }

  lemma {:induction false} DecimalIsInjective(m: nat, n: nat)
    requires Decimal(m) == Decimal(n)
    ensures m == n
  {
    assert Decimal(m)[|Decimal(m)| - 1] == Digit(m % 10);
    assert Decimal(n)[|Decimal(n)| - 1] == Digit(n % 10);
    assert m % 10 == n % 10;
    if m >= 10 && n >= 10 {
      assert Decimal(m)[..|Decimal(m)| - 1] == Decimal(m / 10);
      assert Decimal(n)[..|Decimal(n)| - 1] == Decimal(n / 10);
      DecimalIsInjective(m / 10, n / 10);
    }
  }

  lemma CandidateIsInjective(base: string, m: nat, n: nat)
    requires Candidate(base, m) == Candidate(base, n)
    ensures m == n
  {
    if m > 0 && n > 0 {
      var k := |base| + 1;
      assert Candidate(base, m)[k..] == Decimal(m);
      assert Candidate(base, n)[k..] == Decimal(n);
      DecimalIsInjective(m, n);
    }
  }

  /** The number that a string of decimal digits stands for. */
  function Reading(digits: string): int {
    if digits == "" then 0 else 10 * Reading(digits[..|digits| - 1]) + (digits[|digits| - 1] as int - '0' as int)
  }

  /** The suffix is the counter in decimal: its digits read back as the number, with no zero in front. */
  lemma {:induction false} DecimalReads(n: nat)
    ensures Reading(Decimal(n)) == n
    ensures forall i :: 0 <= i < |Decimal(n)| ==> '0' <= Decimal(n)[i] <= '9'
    ensures n > 0 ==> Decimal(n)[0] != '0'
  {
    var last := Decimal(n)[|Decimal(n)| - 1];
    assert last as int == n % 10 + '0' as int;
    if n >= 10 {
      DecimalReads(n / 10);
      assert Decimal(n)[..|Decimal(n)| - 1] == Decimal(n / 10);
      forall i | 0 <= i < |Decimal(n)| ensures '0' <= Decimal(n)[i] <= '9' {
        assert i < |Decimal(n)| - 1 ==> Decimal(n)[i] == Decimal(n / 10)[i];
      }
    } else {
      assert Decimal(n)[..|Decimal(n)| - 1] == "";
    }
  }

  /** The names tried before the `counter`-th. */
  function Tried(base: string, counter: nat): set<string> {
    set i | 0 <= i < counter :: Candidate(base, i)
  }

  lemma {:induction false} TriedSize(base: string, counter: nat)
    ensures |Tried(base, counter)| == counter
  {
    if counter == 0 {
      assert Tried(base, 0) == {};
    } else {
      TriedSize(base, counter - 1);
      forall i | 0 <= i < counter - 1 ensures Candidate(base, i) != Candidate(base, counter - 1) {
        if Candidate(base, i) == Candidate(base, counter - 1) {
          CandidateIsInjective(base, i, counter - 1);
        }
      }
      assert Tried(base, counter) == Tried(base, counter - 1) + {Candidate(base, counter - 1)};
    }
  }

  /** Pigeonhole: as many taken names as tries means there are at least that many slugs. */
  lemma TriedFits(base: string, counter: nat, existing: set<string>)
    requires forall i :: 0 <= i < counter ==> Candidate(base, i) in existing
    ensures counter <= |existing|
  {
    TriedSize(base, counter);
    assert Tried(base, counter) <= existing;
    assert existing == Tried(base, counter) + (existing - Tried(base, counter));
  }

  /**
   The search loop: it stops after at most |existing| + 1 probes with a free slug, the one with
   the least free counter.
   */
  method UniqueSlug(base: string, existing: set<string>) returns (slug: string, ghost used: nat)
    ensures slug !in existing && slug == Candidate(base, used)
    ensures if used == 0 then slug == base else slug == base + "-" + Decimal(used)
    ensures forall i :: 0 <= i < used ==> Candidate(base, i) in existing
    ensures used <= |existing|
  {
    slug := base;
    var counter := 1;
    used := 0;
    while slug in existing
      invariant counter == used + 1 && slug == Candidate(base, used)
      invariant forall i :: 0 <= i < used ==> Candidate(base, i) in existing
      decreases |existing| - used
    {
      TriedFits(base, used + 1, existing);
      slug := base + "-" + Decimal(counter);
      counter := counter + 1;
      used := used + 1;
    }
    TriedFits(base, used, existing);
  }
}
