/**
 * Regroupings of string concatenations. The parsing lemmas call these rather
 * than asserting the equalities themselves, which keeps each sequence
 * argument apart from the parser terms in scope.
 */
module SeqFacts {
  lemma Assoc3(a: string, b: string, c: string)
    ensures a + b + c == a + (b + c)
  {
  }

  lemma Assoc4(a: string, b: string, c: string, d: string)
    ensures a + b + c + d == a + (b + (c + d))
  {
  }

  lemma AssocLast(a: string, b: string, c: string, d: string, e: string)
    ensures a + b + c + d + e == a + b + c + (d + e)
  {
  }

  lemma AssocLast6(a: string, b: string, c: string, d: string, e: string, f: string)
    ensures a + b + c + d + e + f == a + b + c + d + (e + f)
  {
  }

  lemma AssocMid(a: string, b: string, c: string, d: string, e: string)
    ensures a + b + c + d + e == a + b + (c + d + e)
  {
  }

  lemma HeadTail<T>(s: seq<T>)
    requires s != []
    ensures [s[0]] + s[1..] == s
  {
  }

  lemma EmptyRight(a: string, b: string)
    ensures a + "" + b == a + b
  {
  }
}
