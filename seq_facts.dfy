/** Facts about sequences shared by the text and record builders. */
module SeqFacts {
  /** Regrouping a concatenation, for appends built up step by step. */
  lemma AppendAssociative<T>(a: seq<T>, b: seq<T>, c: seq<T>)
    ensures (a + b) + c == a + (b + c)
  {
  }
}
