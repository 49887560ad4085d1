/**
 * The six case strategies of the passphrase generator (src/xkpassgen/lib/case.py).
 * Each maps an ordered list of words to a list of the same length and order.
 */
module Case {
  import opened Text

  /**
   * The random source of `random_case`. `draw(i)` is the outcome of the i-th
   * `random.choice([True, False])` made by one call; `seeded(w)` is the outcome
   * of the first choice after `random.seed(w)`, which is what testing mode uses.
   */
  datatype Rng = Rng(draw: nat -> bool, seeded: string -> bool)

  /** Two word lists hold the same words in the same order, up to letter case. */
  predicate SameUpToCase(output: seq<string>, input: seq<string>) {
    |output| == |input| && forall i :: 0 <= i < |input| ==> Lower(output[i]) == Lower(input[i])
  }

  /** `lower_case`: every word lower case. */
  function LowerCase(words: seq<string>): seq<string> {
    seq(|words|, i requires 0 <= i < |words| => Lower(words[i]))
  }

  /** `upper_case`: every word upper case. */
  function UpperCase(words: seq<string>): seq<string> {
    seq(|words|, i requires 0 <= i < |words| => Upper(words[i]))
  }

  /** `first_upper_case`: `capitalize()` of every word. */
  function FirstUpperCase(words: seq<string>): seq<string> {
    seq(|words|, i requires 0 <= i < |words| => Capitalize(words[i]))
  }

  /** `capitalize_case`: `capitalize()` of every word. */
  function CapitalizeCase(words: seq<string>): seq<string> {
    seq(|words|, i requires 0 <= i < |words| => Capitalize(words[i]))
  }

  /** `alternating_case`: lower-case everything, then upper-case the words at even positions. */
  function AlternatingCase(words: seq<string>): seq<string> {
    var low := LowerCase(words);
    seq(|low|, i requires 0 <= i < |low| => if i % 2 == 0 then Upper(low[i]) else low[i])
  }

  /** The coin `make_upper` flips for the `i`-th (already lower-cased) word. */
  function MakeUpperCoin(rng: Rng, testing: bool, i: nat, word: string): bool {
    if testing then rng.seeded(word) else rng.draw(i)
  }

  /** `random_case`: lower-case everything, then upper-case each word on which the coin comes up true. */
  function RandomCase(words: seq<string>, testing: bool, rng: Rng): seq<string> {
    var low := LowerCase(words);
    seq(|low|, i requires 0 <= i < |low| =>
      if MakeUpperCoin(rng, testing, i, low[i]) then Upper(low[i]) else low[i])
  }

  lemma LowerCaseSpec(words: seq<string>)
    ensures SameUpToCase(LowerCase(words), words)
    ensures forall i :: 0 <= i < |words| ==> LowerCase(words)[i] == Lower(words[i])
    ensures forall i :: 0 <= i < |words| && HasCased(words[i]) ==> IsLower(LowerCase(words)[i])
  {
    forall i | 0 <= i < |words|
      ensures Lower(LowerCase(words)[i]) == Lower(words[i])
      ensures HasCased(words[i]) ==> IsLower(LowerCase(words)[i])
    {
      LowerAfterCasing(words[i]);
      if HasCased(words[i]) {
        LowerIsLower(words[i]);
      }
    }
  }

  lemma UpperCaseSpec(words: seq<string>)
    ensures SameUpToCase(UpperCase(words), words)
    ensures forall i :: 0 <= i < |words| && HasCased(words[i]) ==> IsUpper(UpperCase(words)[i])
  {
    forall i | 0 <= i < |words|
      ensures Lower(UpperCase(words)[i]) == Lower(words[i])
      ensures HasCased(words[i]) ==> IsUpper(UpperCase(words)[i])
    {
      LowerAfterCasing(words[i]);
      if HasCased(words[i]) {
        UpperIsUpper(words[i]);
      }
    }
  }

  /** `first_upper_case` and `capitalize_case` are one function, and a word of letters comes out title-cased. */
  lemma CapitalizeCaseSpec(words: seq<string>)
    ensures FirstUpperCase(words) == CapitalizeCase(words)
    ensures SameUpToCase(CapitalizeCase(words), words)
    ensures forall i :: 0 <= i < |words| && |words[i]| > 0 && AllCased(words[i]) ==>
      IsTitle(CapitalizeCase(words)[i])
  {
    forall i | 0 <= i < |words|
      ensures Lower(CapitalizeCase(words)[i]) == Lower(words[i])
      ensures |words[i]| > 0 && AllCased(words[i]) ==> IsTitle(CapitalizeCase(words)[i])
    {
      LowerAfterCasing(words[i]);
      if |words[i]| > 0 && AllCased(words[i]) {
        CapitalizeIsTitle(words[i]);
      }
    }
  }

  /** Even positions hold the upper-cased word, odd positions the lower-cased word. */
  lemma AlternatingCaseSpec(words: seq<string>)
    ensures SameUpToCase(AlternatingCase(words), words)
    ensures forall i :: 0 <= i < |words| ==>
      AlternatingCase(words)[i] == if i % 2 == 0 then Upper(words[i]) else Lower(words[i])
    ensures forall i :: 0 <= i < |words| && HasCased(words[i]) ==>
      if i % 2 == 0 then IsUpper(AlternatingCase(words)[i]) else IsLower(AlternatingCase(words)[i])
  {
    var r := AlternatingCase(words);
    forall i | 0 <= i < |words|
      ensures Lower(r[i]) == Lower(words[i])
      ensures r[i] == if i % 2 == 0 then Upper(words[i]) else Lower(words[i])
      ensures HasCased(words[i]) ==> if i % 2 == 0 then IsUpper(r[i]) else IsLower(r[i])
    {
      LowerAfterCasing(words[i]);
      LowerAfterCasing(Lower(words[i]));
      if HasCased(words[i]) {
        UpperIsUpper(words[i]);
        LowerIsLower(words[i]);
      }
    }
  }

  /** Each word comes out either lower case or upper case, as its coin decides. */
  lemma RandomCaseSpec(words: seq<string>, testing: bool, rng: Rng)
    ensures SameUpToCase(RandomCase(words, testing, rng), words)
    ensures forall i :: 0 <= i < |words| ==>
      RandomCase(words, testing, rng)[i] ==
        if MakeUpperCoin(rng, testing, i, Lower(words[i])) then Upper(words[i]) else Lower(words[i])
  {
    var r := RandomCase(words, testing, rng);
    forall i | 0 <= i < |words|
      ensures Lower(r[i]) == Lower(words[i])
      ensures r[i] == if MakeUpperCoin(rng, testing, i, Lower(words[i])) then Upper(words[i]) else Lower(words[i])
    {
      LowerAfterCasing(words[i]);
      LowerAfterCasing(Lower(words[i]));
    }
  }

  /**
   * In testing mode the casing of a word depends on its text alone: the same
   * word (up to case) gets the same casing wherever it stands, in any list.
   */
  lemma RandomCaseSeeded(words1: seq<string>, words2: seq<string>, rng: Rng)
    ensures forall i, j :: 0 <= i < |words1| && 0 <= j < |words2| && Lower(words1[i]) == Lower(words2[j]) ==>
      RandomCase(words1, true, rng)[i] == RandomCase(words2, true, rng)[j]
  {
    RandomCaseSpec(words1, true, rng);
    RandomCaseSpec(words2, true, rng);
    forall i, j | 0 <= i < |words1| && 0 <= j < |words2| && Lower(words1[i]) == Lower(words2[j])
      ensures RandomCase(words1, true, rng)[i] == RandomCase(words2, true, rng)[j]
    {
      LowerAfterCasing(words1[i]);
      LowerAfterCasing(words2[j]);
    }
  }

  /** No strategy adds, drops, reorders or misspells a word. */
  lemma StrategiesKeepWords(words: seq<string>, testing: bool, rng: Rng)
    ensures SameUpToCase(LowerCase(words), words)
    ensures SameUpToCase(UpperCase(words), words)
    ensures SameUpToCase(FirstUpperCase(words), words)
    ensures SameUpToCase(CapitalizeCase(words), words)
    ensures SameUpToCase(AlternatingCase(words), words)
    ensures SameUpToCase(RandomCase(words, testing, rng), words)
  {
    LowerCaseSpec(words);
    UpperCaseSpec(words);
    CapitalizeCaseSpec(words);
    AlternatingCaseSpec(words);
    RandomCaseSpec(words, testing, rng);
  }

  /**
   * The two word lists the random-case test uses: "this", "is", "a" and "test"
   * get the same casing in both, whatever the seeded coin is.
   */
  lemma SeededTestLists(rng: Rng)
    ensures var r1 := RandomCase(["this", "is", "only", "a", "test"], true, rng);
            var r2 := RandomCase(["this", "is", "a", "test", "also"], true, rng);
            r1[0] == r2[0] && r1[1] == r2[1] && r1[3] == r2[2] && r1[4] == r2[3]
  {
    var w1: seq<string> := ["this", "is", "only", "a", "test"];
    var w2: seq<string> := ["this", "is", "a", "test", "also"];
    RandomCaseSeeded(w1, w2, rng);
    assert Lower(w1[0]) == Lower(w2[0]) && Lower(w1[1]) == Lower(w2[1]);
    assert Lower(w1[3]) == Lower(w2[2]) && Lower(w1[4]) == Lower(w2[3]);
  }
}
