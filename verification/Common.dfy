/** Small shared vocabulary: optional values and sequences without consecutive repeats. */
module Common {

  datatype Option<+T> = None | Some(value: T)

  /** `s` with every run of equal neighbours collapsed to one element. */
  function Dedup<T(==)>(s: seq<T>): (r: seq<T>)
    ensures |r| <= |s|
    ensures s != [] ==> r != [] && r[|r| - 1] == s[|s| - 1]
    ensures forall x <- r :: x in s
  {
    if s == [] then []
    else
      var front := s[..|s| - 1];
      var d := Dedup(front);
      if front != [] && front[|front| - 1] == s[|s| - 1] then d else d + [s[|s| - 1]]
  }

  /** Observing one more value extends the collapsed sequence exactly when the value is new. */
  lemma DedupSnoc<T>(s: seq<T>, v: T)
    ensures Dedup(s + [v]) == if s != [] && s[|s| - 1] == v then Dedup(s) else Dedup(s) + [v]
  {
    assert (s + [v])[..|s|] == s;
  }

  /** The collapsed sequence really has no equal neighbours. */
  lemma {:induction false} DedupHasNoRepeats<T>(s: seq<T>)
    ensures forall i | 0 < i < |Dedup(s)| :: Dedup(s)[i - 1] != Dedup(s)[i]
  {
    if s != [] {
      DedupHasNoRepeats(s[..|s| - 1]);
    }
  }
}
