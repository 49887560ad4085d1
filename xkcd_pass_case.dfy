/**
 * The typed copy of the case strategies (src/xkcd_pass/lib/case.py): the same
 * six list comprehensions under the names `case_*`.
 */
module XkcdPassCase {
  import opened Text
  import Case

  /** `case_lower` */
  function CaseLower(words: seq<string>): seq<string> {
    seq(|words|, i requires 0 <= i < |words| => Lower(words[i]))
  }

  /** `case_upper` */
  function CaseUpper(words: seq<string>): seq<string> {
    seq(|words|, i requires 0 <= i < |words| => Upper(words[i]))
  }

  /** `case_first_upper` */
  function CaseFirstUpper(words: seq<string>): seq<string> {
    seq(|words|, i requires 0 <= i < |words| => Capitalize(words[i]))
  }

  /** `case_capitalize` */
  function CaseCapitalize(words: seq<string>): seq<string> {
    seq(|words|, i requires 0 <= i < |words| => Capitalize(words[i]))
  }

  /** `case_alternating` */
  function CaseAlternating(words: seq<string>): seq<string> {
    var low := CaseLower(words);
    seq(|low|, i requires 0 <= i < |low| => if i % 2 == 0 then Upper(low[i]) else low[i])
  }

  /** `case_random`, its coin flips drawn from `rng` as in `Case.RandomCase`. */
  function CaseRandom(words: seq<string>, testing: bool, rng: Case.Rng): seq<string> {
    var low := CaseLower(words);
    seq(|low|, i requires 0 <= i < |low| =>
      if (if testing then rng.seeded(low[i]) else rng.draw(i)) then Upper(low[i]) else low[i])
  }

  /** Each `case_*` function is its counterpart of src/xkpassgen/lib/case.py, renamed. */
  lemma AgreesWithXkPassGen(words: seq<string>, testing: bool, rng: Case.Rng)
    ensures CaseLower(words) == Case.LowerCase(words)
    ensures CaseUpper(words) == Case.UpperCase(words)
    ensures CaseFirstUpper(words) == Case.FirstUpperCase(words)
    ensures CaseCapitalize(words) == Case.CapitalizeCase(words)
    ensures CaseAlternating(words) == Case.AlternatingCase(words)
    ensures CaseRandom(words, testing, rng) == Case.RandomCase(words, testing, rng)
  {
    assert CaseLower(words) == Case.LowerCase(words);
    var r := CaseRandom(words, testing, rng);
    forall i | 0 <= i < |words| ensures r[i] == Case.RandomCase(words, testing, rng)[i] {
    }
  }

  /** `case_lower` keeps the words up to case and makes every word with a letter `islower()`. */
  lemma CaseLowerSpec(words: seq<string>)
    ensures Case.SameUpToCase(CaseLower(words), words)
    ensures forall i :: 0 <= i < |words| && HasCased(words[i]) ==> IsLower(CaseLower(words)[i])
  {
    assert CaseLower(words) == Case.LowerCase(words);
    Case.LowerCaseSpec(words);
  }

  /** `case_upper` keeps the words up to case and makes every word with a letter `isupper()`. */
  lemma CaseUpperSpec(words: seq<string>)
    ensures Case.SameUpToCase(CaseUpper(words), words)
    ensures forall i :: 0 <= i < |words| && HasCased(words[i]) ==> IsUpper(CaseUpper(words)[i])
  {
    assert CaseUpper(words) == Case.UpperCase(words);
    Case.UpperCaseSpec(words);
  }

  /** `case_first_upper` and `case_capitalize` coincide, keep the words up to case and title-case words of letters. */
  lemma CaseCapitalizeSpec(words: seq<string>)
    ensures CaseFirstUpper(words) == CaseCapitalize(words)
    ensures Case.SameUpToCase(CaseCapitalize(words), words)
    ensures forall i :: 0 <= i < |words| && |words[i]| > 0 && AllCased(words[i]) ==>
      IsTitle(CaseCapitalize(words)[i])
  {
    assert CaseCapitalize(words) == Case.CapitalizeCase(words);
    Case.CapitalizeCaseSpec(words);
  }

  /** `case_alternating` upper-cases exactly the even positions and lower-cases the odd ones. */
  lemma CaseAlternatingSpec(words: seq<string>)
    ensures Case.SameUpToCase(CaseAlternating(words), words)
    ensures forall i :: 0 <= i < |words| ==>
      CaseAlternating(words)[i] == if i % 2 == 0 then Upper(words[i]) else Lower(words[i])
    ensures forall i :: 0 <= i < |words| && HasCased(words[i]) ==>
      if i % 2 == 0 then IsUpper(CaseAlternating(words)[i]) else IsLower(CaseAlternating(words)[i])
  {
    AgreesWithXkPassGen(words, false, Case.Rng(_ => false, _ => false));
    Case.AlternatingCaseSpec(words);
  }

  /** `case_random` keeps the words up to case, each coming out lower or upper case. */
  lemma CaseRandomSpec(words: seq<string>, testing: bool, rng: Case.Rng)
    ensures Case.SameUpToCase(CaseRandom(words, testing, rng), words)
    ensures forall i :: 0 <= i < |words| ==>
      CaseRandom(words, testing, rng)[i] == Lower(words[i]) || CaseRandom(words, testing, rng)[i] == Upper(words[i])
  {
    AgreesWithXkPassGen(words, testing, rng);
    Case.RandomCaseSpec(words, testing, rng);
  }

  /** With `testing` set, the same word gets the same casing in any two lists. */
  lemma CaseRandomSeeded(words1: seq<string>, words2: seq<string>, rng: Case.Rng)
    ensures forall i, j :: 0 <= i < |words1| && 0 <= j < |words2| && Lower(words1[i]) == Lower(words2[j]) ==>
      CaseRandom(words1, true, rng)[i] == CaseRandom(words2, true, rng)[j]
  {
    AgreesWithXkPassGen(words1, true, rng);
    AgreesWithXkPassGen(words2, true, rng);
    Case.RandomCaseSeeded(words1, words2, rng);
  }
}
