/** JavaScript's `String.prototype.localeCompare`, modelled as code-point
    order (the browser collates by locale, folding case, accents and
    punctuation), and the comparators built from it. */
module Collate {
  import opened Text
  import opened Seqs

  lemma {:induction false} LexLeReflexive(a: string)
    ensures LexLe(a, a)
  {
    if a != [] {
      LexLeReflexive(a[1..]);
    }
  }

  /** `a.localeCompare(b)`: negative when `a` sorts first, zero when the two
      are the same text, positive when `b` sorts first. */
  function LocaleCompare(a: string, b: string): (r: int)
    ensures r == 0 <==> a == b
    ensures r <= 0 <==> LexLe(a, b)
  {
    LexLeReflexive(a);
    if a == b then 0 else if LexLe(a, b) then -1 else 1
  }

  /** Swapping the operands flips the sign. */
  lemma LocaleCompareSwap(a: string, b: string)
    ensures LocaleCompare(b, a) == -LocaleCompare(a, b)
  {
    LexLeTotal(a, b);
    if LexLe(a, b) && LexLe(b, a) {
      LexLeAntisymmetric(a, b);
    }
  }

  /** Comparing elements by a text key with `localeCompare` is a consistent
      comparator. */
  lemma StringKeyOrder<T(!new)>(le: (T, T) -> bool, key: T -> string)
    requires forall a, b :: le(a, b) == LexLe(key(a), key(b))
    ensures TotalPreorder(le)
  {
    forall a: T, b: T ensures le(a, b) || le(b, a) {
      LexLeTotal(key(a), key(b));
    }
    forall a: T, b: T, c: T | le(a, b) && le(b, c)
      ensures le(a, c)
    {
      LexLeTransitive(key(a), key(b), key(c));
    }
  }

  /** Sorting texts with `localeCompare` orders them consistently, and no two
      different texts compare equal. */
  lemma TextOrder()
    ensures TotalPreorder(LexLe) && Antisymmetric(LexLe)
  {
    forall a: string, b: string ensures LexLe(a, b) || LexLe(b, a) {
      LexLeTotal(a, b);
    }
    forall a: string, b: string, c: string | LexLe(a, b) && LexLe(b, c)
      ensures LexLe(a, c)
    {
      LexLeTransitive(a, b, c);
    }
    forall a: string, b: string | LexLe(a, b) && LexLe(b, a)
      ensures a == b
    {
      LexLeAntisymmetric(a, b);
    }
  }
}
