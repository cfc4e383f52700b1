/** Whole-word search in a node's display name, as country inference uses it. */
module Country {

  predicate OccursAt(text: string, word: string, p: int) {
    0 <= p && p + |word| <= |text| && text[p..p + |word|] == word
  }

  /** `strings.Index`: the first occurrence, or -1. */
  function Index(text: string, word: string): (p: int)
    ensures p >= 0 ==> OccursAt(text, word, p)
    ensures forall q :: OccursAt(text, word, q) ==> 0 <= p <= q
  {
    IndexFrom(text, word, 0)
  }

  function IndexFrom(text: string, word: string, from: nat): (p: int)
    ensures p >= 0 ==> from <= p && OccursAt(text, word, p)
    ensures forall q :: from <= q && OccursAt(text, word, q) ==> 0 <= p <= q
    decreases |text| - from
  {
    if from + |word| > |text| then -1
    else if text[from..from + |word|] == word then from
    else IndexFrom(text, word, from + 1)
  }

  predicate IsLowerLetter(c: char) { 'a' <= c <= 'z' }

  /** No lowercase letter touches the occurrence at `p`. */
  predicate Standalone(text: string, word: string, p: int)
    requires OccursAt(text, word, p)
  {
    && (p == 0 || !IsLowerLetter(text[p - 1]))
    && (p + |word| == |text| || !IsLowerLetter(text[p + |word|]))
  }

  lemma OccursInRest(text: string, word: string, offset: nat, p: int)
    requires offset <= |text| && offset <= p
    ensures OccursAt(text, word, p) <==> OccursAt(text[offset..], word, p - offset)
  {
    if p + |word| <= |text| {
      assert text[offset..][p - offset..p - offset + |word|] == text[p..p + |word|];
    }
  }

  /** The next occurrence at or after `offset`, found in the rest of the text. */
  lemma NextOccurrence(text: string, word: string, offset: nat)
    requires offset <= |text|
    ensures var index := Index(text[offset..], word);
            if index < 0 then forall p :: offset <= p ==> !OccursAt(text, word, p)
            else OccursAt(text, word, offset + index) && forall p :: offset <= p < offset + index ==> !OccursAt(text, word, p)
  {
    var index := Index(text[offset..], word);
    if index >= 0 {
      OccursInRest(text, word, offset, offset + index);
    }
    forall p | offset <= p && (index < 0 || p < offset + index) ensures !OccursAt(text, word, p) {
      OccursInRest(text, word, offset, p);
    }
  }

  /** Advancing by one past a rejected occurrence misses none, overlapping ones included. */
  method ContainsWord(text: string, word: string) returns (found: bool)
    ensures found <==> exists p :: OccursAt(text, word, p) && Standalone(text, word, p)
  {
    var offset := 0;
    while offset + |word| <= |text|
      invariant 0 <= offset
      invariant forall p :: p < offset && OccursAt(text, word, p) ==> !Standalone(text, word, p)
      decreases |text| - offset
    {
      NextOccurrence(text, word, offset);
      var index := Index(text[offset..], word);
      if index < 0 {
        return false;
      }
      var start := offset + index;
      var end := start + |word|;
      var leftOk := start == 0 || text[start - 1] < 'a' || text[start - 1] > 'z';
      var rightOk := end == |text| || text[end] < 'a' || text[end] > 'z';
      if leftOk && rightOk {
        assert Standalone(text, word, start);
        return true;
      }
      assert !Standalone(text, word, start);
      offset := start + 1;
    }
    return false;
  }
}
