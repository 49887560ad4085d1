/**
 * The passphrase engine of src/xkpassgen/xkpassgen.py: the word filter, the
 * case-method dispatch, word selection, numeric padding, passphrase assembly,
 * the interactive accept loop, the word-count prompt and batch emission.
 *
 * Standard input is a scripted list of answers, standard output the text the
 * program writes, and every random choice an oracle value supplied by the caller.
 */
module XkPassGen {
  import opened Wrappers
  import Text
  import Case

  // ---------------------------------------------------------------------------
  // Case methods: the keys of CASE_METHODS and set_case

  datatype CaseMethod = Alternating | Upper | Lower | Random | First | Capitalize

  function CaseMethodName(m: CaseMethod): string {
    match m
    case Alternating => "alternating"
    case Upper => "upper"
    case Lower => "lower"
    case Random => "random"
    case First => "first"
    case Capitalize => "capitalize"
  }

  /** `CASE_METHODS[name]`: a name is found exactly when it is the name of a case method. */
  function LookupCaseMethod(name: string): (r: Option<CaseMethod>)
    ensures forall m :: CaseMethodName(m) == name <==> r == Some(m)
  {
    if name == "alternating" then Some(Alternating)
    else if name == "upper" then Some(Upper)
    else if name == "lower" then Some(Lower)
    else if name == "random" then Some(Random)
    else if name == "first" then Some(First)
    else if name == "capitalize" then Some(Capitalize)
    else None
  }

  /** `set_case(words, method, testing)`; `testing` only matters to the random method. */
  function SetCase(words: seq<string>, caseMethod: CaseMethod, testing: bool, rng: Case.Rng): (r: seq<string>)
    ensures Case.SameUpToCase(r, words)
  {
    Case.StrategiesKeepWords(words, testing, rng);
    if caseMethod == Random && testing then Case.RandomCase(words, true, rng)
    else match caseMethod
      case Alternating => Case.AlternatingCase(words)
      case Upper => Case.UpperCase(words)
      case Lower => Case.LowerCase(words)
      case Random => Case.RandomCase(words, false, rng)
      case First => Case.FirstUpperCase(words)
      case Capitalize => Case.CapitalizeCase(words)
  }

  // ---------------------------------------------------------------------------
  // The word filter: generate_wordlist

  /** The maximum length the filter uses: raised to the minimum when below it, never lowered. */
  function EffectiveMax(minLength: int, maxLength: int): (r: int)
    ensures r >= minLength && r >= maxLength
    ensures r == minLength || r == maxLength
  {
    if minLength > maxLength then minLength else maxLength
  }

  /** `re.match("^C{min,max}$", word)`, where the class C is the predicate `validChar`. */
  predicate Matches(word: string, minLength: int, maxLength: int, validChar: char -> bool) {
    minLength <= |word| <= maxLength && forall i :: 0 <= i < |word| ==> validChar(word[i])
  }

  /** The set `words` once the lines have been read, one by one, in order. */
  function Filtered(lines: seq<string>, minLength: nat, maxLength: int, validChar: char -> bool): set<string>
    decreases |lines|
  {
    if |lines| == 0 then {}
    else
      var earlier := Filtered(lines[..|lines| - 1], minLength, maxLength, validChar);
      var word := Text.Strip(lines[|lines| - 1]);
      if Matches(word, minLength, EffectiveMax(minLength, maxLength), validChar) then earlier + {word}
      else earlier
  }

  /** `w` is `strip()` of one of the lines. */
  predicate StrippedLine(w: string, lines: seq<string>) {
    exists j :: 0 <= j < |lines| && w == Text.Strip(lines[j])
  }

  /** Soundness and completeness of the filter: its words are exactly the stripped lines that match. */
  lemma {:induction false} FilteredMembers(lines: seq<string>, minLength: nat, maxLength: int, validChar: char -> bool)
    ensures forall w :: w in Filtered(lines, minLength, maxLength, validChar) <==>
      StrippedLine(w, lines) && Matches(w, minLength, EffectiveMax(minLength, maxLength), validChar)
    decreases |lines|
  {
    if |lines| > 0 {
      var init := lines[..|lines| - 1];
      FilteredMembers(init, minLength, maxLength, validChar);
      forall w | w in Filtered(lines, minLength, maxLength, validChar)
        ensures exists j :: (0 <= j < |lines| && w == Text.Strip(lines[j]) &&
          Matches(w, minLength, EffectiveMax(minLength, maxLength), validChar))
      {
        if w in Filtered(init, minLength, maxLength, validChar) {
          var j :| 0 <= j < |init| && w == Text.Strip(init[j]) &&
            Matches(w, minLength, EffectiveMax(minLength, maxLength), validChar);
          assert lines[j] == init[j];
        }
      }
      forall w, j | 0 <= j < |lines| && w == Text.Strip(lines[j]) &&
          Matches(w, minLength, EffectiveMax(minLength, maxLength), validChar)
        ensures w in Filtered(lines, minLength, maxLength, validChar)
      {
        if j < |init| {
          assert init[j] == lines[j];
        }
      }
    }
  }

  predicate NoDuplicates(s: seq<string>) {
    forall i, j :: 0 <= i < j < |s| ==> s[i] != s[j]
  }

  /** `list(words)`: the members of a set, each once, in an order the model leaves open. */
  method ListOfSet(s: set<string>) returns (r: seq<string>)
    ensures forall x :: x in r <==> x in s
    ensures NoDuplicates(r)
  {
    r := [];
    var rest := s;
    while rest != {}
      invariant rest <= s
      invariant forall x :: x in r <==> x in s && x !in rest
      invariant NoDuplicates(r)
      decreases |rest|
    {
      var x :| x in rest;
      r := r + [x];
      rest := rest - {x};
    }
  }

  /**
   * `generate_wordlist`: the lines of the word file, stripped, that match
   * `^C{min,max}$`, without duplicates; a maximum below the minimum is raised to it.
   */
  method GenerateWordlist(lines: seq<string>, minLength: nat, maxLength: int, validChar: char -> bool)
    returns (wordlist: seq<string>)
    ensures forall w :: w in wordlist <==> w in Filtered(lines, minLength, maxLength, validChar)
    ensures NoDuplicates(wordlist)
    ensures forall w :: w in wordlist ==>
      StrippedLine(w, lines) && Matches(w, minLength, EffectiveMax(minLength, maxLength), validChar)
    ensures forall j :: 0 <= j < |lines| && Matches(Text.Strip(lines[j]), minLength, EffectiveMax(minLength, maxLength), validChar) ==>
      Text.Strip(lines[j]) in wordlist
  {
    var maxLen := maxLength;
    if minLength > maxLen {
      maxLen := minLength;
    }
    var words: set<string> := {};
    var k := 0;
    while k < |lines|
      invariant 0 <= k <= |lines|
      invariant maxLen == EffectiveMax(minLength, maxLength)
      invariant words == Filtered(lines[..k], minLength, maxLength, validChar)
    {
      var thisword := Text.Strip(lines[k]);
      if Matches(thisword, minLength, maxLen, validChar) {
        words := words + {thisword};
      }
      assert lines[..k + 1][..k] == lines[..k];
      k := k + 1;
    }
    assert lines[..k] == lines;
    wordlist := ListOfSet(words);
    FilteredMembers(lines, minLength, maxLength, validChar);
  }

  /** Filtering the filter's output again, with the same bounds and class, gives the same words. */
  lemma FilterIdempotent(lines: seq<string>, wordlist: seq<string>, minLength: nat, maxLength: int, validChar: char -> bool)
    requires forall w :: w in wordlist <==> w in Filtered(lines, minLength, maxLength, validChar)
    ensures Filtered(wordlist, minLength, maxLength, validChar) == Filtered(lines, minLength, maxLength, validChar)
  {
    var hi := EffectiveMax(minLength, maxLength);
    FilteredMembers(lines, minLength, maxLength, validChar);
    FilteredMembers(wordlist, minLength, maxLength, validChar);
    forall w | w in Filtered(lines, minLength, maxLength, validChar)
      ensures w in Filtered(wordlist, minLength, maxLength, validChar)
    {
      var j :| 0 <= j < |lines| && w == Text.Strip(lines[j]) && Matches(w, minLength, hi, validChar);
      Text.StripIdempotent(lines[j]);
      var i :| 0 <= i < |wordlist| && wordlist[i] == w;
      assert w == Text.Strip(wordlist[i]);
    }
    forall w | w in Filtered(wordlist, minLength, maxLength, validChar)
      ensures w in Filtered(lines, minLength, maxLength, validChar)
    {
      var i :| 0 <= i < |wordlist| && w == Text.Strip(wordlist[i]) && Matches(w, minLength, hi, validChar);
      assert wordlist[i] in Filtered(lines, minLength, maxLength, validChar);
      var j :| 0 <= j < |lines| && wordlist[i] == Text.Strip(lines[j]) && Matches(wordlist[i], minLength, hi, validChar);
      Text.StripIdempotent(lines[j]);
    }
  }

  // ---------------------------------------------------------------------------
  // Selection and padding: choose_words, generate_random_padding_numbers

  datatype Error =
    | EmptyWordList    // `rng().choice` of an empty list raises IndexError
    | BadPaddingWidth  // `randint` refuses the bounds 10^(d-1), 10^d - 1 when d < 1

  /** How many times `xrange(n)` runs. */
  function Times(n: int): nat {
    if n < 0 then 0 else n
  }

  /** The indices `rng().choice` draws, one per word, each below the length of the list. */
  predicate PicksFit(picks: seq<nat>, numwords: int, size: nat) {
    |picks| >= Times(numwords) && forall k :: 0 <= k < Times(numwords) ==> picks[k] < size
  }

  /** `choose_words`: `numwords` independent draws from the list, with replacement. */
  function ChooseWords(wordlist: seq<string>, numwords: int, picks: seq<nat>): (r: Result<seq<string>, Error>)
    requires |wordlist| > 0 ==> PicksFit(picks, numwords, |wordlist|)
    ensures r.Failure? <==> numwords > 0 && |wordlist| == 0
    ensures r.Failure? ==> r.error == EmptyWordList
    ensures r.Success? ==> |r.value| == Times(numwords) && forall i :: 0 <= i < |r.value| ==> r.value[i] in wordlist
  {
    if numwords > 0 && |wordlist| == 0 then Failure(EmptyWordList)
    else Success(seq(Times(numwords), i requires 0 <= i < Times(numwords) => wordlist[picks[i]]))
  }

  /** From a one-word list every draw is that word. */
  lemma ChooseFromSingleton(w: string, numwords: int, picks: seq<nat>)
    requires PicksFit(picks, numwords, 1)
    ensures var r := ChooseWords([w], numwords, picks);
      r.Success? && |r.value| == Times(numwords) && forall i :: 0 <= i < |r.value| ==> r.value[i] == w
  {
    var r := ChooseWords([w], numwords, picks);
    forall i | 0 <= i < |r.value| ensures r.value[i] == w {
      assert picks[i] == 0;
    }
  }

  function IndexOf(wordlist: seq<string>, w: string): (k: nat)
    requires w in wordlist
    ensures k < |wordlist| && wordlist[k] == w
  {
    if wordlist[0] == w then 0 else 1 + IndexOf(wordlist[1..], w)
  }

  /** Repetition is allowed: every sequence of listed words is a possible outcome of the draws. */
  lemma ChooseWordsReachesEverySequence(wordlist: seq<string>, target: seq<string>)
    requires forall i :: 0 <= i < |target| ==> target[i] in wordlist
    ensures exists picks :: PicksFit(picks, |target|, |wordlist|) && ChooseWords(wordlist, |target|, picks) == Success(target)
  {
    var picks := seq(|target|, i requires 0 <= i < |target| => IndexOf(wordlist, target[i]));
    assert PicksFit(picks, |target|, |wordlist|);
    assert |target| > 0 ==> target[0] in wordlist;
    var r := ChooseWords(wordlist, |target|, picks);
    assert r.Success?;
    assert r.value == target;
  }

  /** The value `randint` returns must lie between the bounds it is given. */
  predicate PaddingFits(digits: int, chosen: int) {
    digits >= 1 ==> Text.Pow10(digits - 1) <= chosen <= Text.Pow10(digits) - 1
  }

  /**
   * `generate_random_padding_numbers(d)`: an integer in [10^(d-1), 10^d - 1],
   * whose decimal form has exactly `d` digits and no leading zero.
   */
  function GenerateRandomPaddingNumbers(digits: int, chosen: int): (r: Result<nat, Error>)
    requires PaddingFits(digits, chosen)
    ensures r.Success? <==> digits >= 1
    ensures r.Failure? ==> r.error == BadPaddingWidth
    ensures r.Success? ==>
      Text.Pow10(digits - 1) <= r.value <= Text.Pow10(digits) - 1 &&
      |Text.DecimalString(r.value)| == digits && Text.DecimalString(r.value)[0] != '0'
  {
    if digits < 1 then Failure(BadPaddingWidth)
    else
      Text.DecimalLength(chosen, digits);
      Success(chosen)
  }

  // ---------------------------------------------------------------------------
  // Assembly: gen_passwd

  /** The parameters of `generate_xkpassword` other than `interactive`. */
  datatype Settings = Settings(
    wordlist: seq<string>,
    numwords: int,
    delimiter: string,
    caseMethod: CaseMethod,
    paddingDigits: bool,
    paddingDigitsNum: int)

  /** The random values one call of `gen_passwd` consumes. */
  datatype Draw = Draw(picks: seq<nat>, padding: int, caseRng: Case.Rng)

  predicate DrawFits(s: Settings, d: Draw) {
    && (|s.wordlist| > 0 ==> PicksFit(d.picks, s.numwords, |s.wordlist|))
    && (s.paddingDigits ==> PaddingFits(s.paddingDigitsNum, d.padding))
  }

  /** The settings under which `gen_passwd` cannot raise. */
  predicate CanGenerate(s: Settings) {
    && (s.numwords > 0 ==> |s.wordlist| > 0)
    && (s.paddingDigits ==> s.paddingDigitsNum >= 1)
  }

  /**
   * `gen_passwd`: the chosen words, cased, joined with the delimiter, then the
   * padding number when padding is on.
   */
  function GenPasswd(s: Settings, d: Draw): (r: Result<string, Error>)
    requires DrawFits(s, d)
    ensures r.Success? <==> CanGenerate(s)
  {
    match ChooseWords(s.wordlist, s.numwords, d.picks)
    case Failure(e) => Failure(e)
    case Success(words) =>
      var joined := Text.Join(s.delimiter, SetCase(words, s.caseMethod, false, d.caseRng));
      if s.paddingDigits then
        match GenerateRandomPaddingNumbers(s.paddingDigitsNum, d.padding)
        case Failure(e) => Failure(e)
        case Success(p) => Success(joined + Text.DecimalString(p))
      else
        Success(joined)
  }

  /** Case mapping neither adds nor removes characters that have no case, such as digits and newlines. */
  lemma SameLowerAvoids(a: string, b: string, bad: char -> bool)
    requires Text.Lower(a) == Text.Lower(b)
    requires Text.Avoids(b, bad)
    requires forall c :: bad(c) ==> !Text.IsCasedChar(c)
    ensures Text.Avoids(a, bad)
  {
    forall k | 0 <= k < |a| ensures !bad(a[k]) {
      assert Text.Lower(a)[k] == Text.Lower(b)[k];
    }
  }

  /** The words of a passphrase, up to case, are drawn from the list. */
  lemma CasedWordsAvoid(s: Settings, d: Draw, bad: char -> bool)
    requires DrawFits(s, d) && CanGenerate(s)
    requires forall c :: bad(c) ==> !Text.IsCasedChar(c)
    requires forall w :: w in s.wordlist ==> Text.Avoids(w, bad)
    ensures ChooseWords(s.wordlist, s.numwords, d.picks).Success?
    ensures var cased := SetCase(ChooseWords(s.wordlist, s.numwords, d.picks).value, s.caseMethod, false, d.caseRng);
      forall k :: 0 <= k < |cased| ==> Text.Avoids(cased[k], bad)
  {
    var words := ChooseWords(s.wordlist, s.numwords, d.picks).value;
    var cased := SetCase(words, s.caseMethod, false, d.caseRng);
    forall k | 0 <= k < |cased| ensures Text.Avoids(cased[k], bad) {
      SameLowerAvoids(cased[k], words[k], bad);
    }
  }

  /**
   * Digits in a passphrase come from the padding only: with digit-free words
   * and delimiter, no padding means no digit, and padding of width `d` means
   * the digits are exactly the last `d` characters, the first of them not '0'.
   */
  lemma PasswordDigits(s: Settings, d: Draw)
    requires DrawFits(s, d) && CanGenerate(s)
    requires forall w :: w in s.wordlist ==> Text.Avoids(w, Text.IsDigitChar)
    requires Text.Avoids(s.delimiter, Text.IsDigitChar)
    ensures var p := GenPasswd(s, d).value;
      if !s.paddingDigits then Text.Avoids(p, Text.IsDigitChar)
      else
        var n := s.paddingDigitsNum;
        n <= |p| && Text.Avoids(p[..|p| - n], Text.IsDigitChar) &&
        Text.AllDigits(p[|p| - n..]) && p[|p| - n] != '0'
  {
    CasedWordsAvoid(s, d, Text.IsDigitChar);
    var words := ChooseWords(s.wordlist, s.numwords, d.picks).value;
    var joined := Text.Join(s.delimiter, SetCase(words, s.caseMethod, false, d.caseRng));
    Text.JoinAvoids(s.delimiter, SetCase(words, s.caseMethod, false, d.caseRng), Text.IsDigitChar);
    if s.paddingDigits {
      var digits := Text.DecimalString(GenerateRandomPaddingNumbers(s.paddingDigitsNum, d.padding).value);
      var p := joined + digits;
      assert p[..|p| - |digits|] == joined;
      assert p[|p| - |digits|..] == digits;
    }
  }

  /**
   * A passphrase avoids every uncased character the words and the delimiter
   * avoid, provided, when padding is on, that it is not a digit either.
   */
  lemma PasswordAvoids(s: Settings, d: Draw, bad: char -> bool)
    requires DrawFits(s, d) && CanGenerate(s)
    requires forall c :: bad(c) ==> !Text.IsCasedChar(c)
    requires s.paddingDigits ==> forall c :: bad(c) ==> !Text.IsDigitChar(c)
    requires forall w :: w in s.wordlist ==> Text.Avoids(w, bad)
    requires Text.Avoids(s.delimiter, bad)
    ensures Text.Avoids(GenPasswd(s, d).value, bad)
  {
    CasedWordsAvoid(s, d, bad);
    var words := ChooseWords(s.wordlist, s.numwords, d.picks).value;
    var joined := Text.Join(s.delimiter, SetCase(words, s.caseMethod, false, d.caseRng));
    Text.JoinAvoids(s.delimiter, SetCase(words, s.caseMethod, false, d.caseRng), bad);
    if s.paddingDigits {
      var digits := Text.DecimalString(GenerateRandomPaddingNumbers(s.paddingDigitsNum, d.padding).value);
      assert Text.Avoids(digits, bad);
      Text.AvoidsConcat(joined, digits, bad);
    }
  }

  // ---------------------------------------------------------------------------
  // Prompts: try_input, accepted_validator, n_words_validator

  /** One scripted answer on standard input: a line (without its newline), end of input, or Ctrl-C. */
  datatype Answer = Line(text: string) | EndOfInput | Interrupt

  /** How a step ends: with a value, with `sys.exit(code)`, or by raising. */
  datatype Outcome<T> = Done(value: T) | Exit(code: int) | Raised(error: Error)

  /** The outcome of a prompt, what it wrote to standard output, and the answers left unread. */
  datatype Prompted<T> = Prompted(outcome: Outcome<T>, out: string, rest: seq<Answer>)

  predicate Cancels(input: seq<Answer>) {
    |input| == 0 || !input[0].Line?
  }

  /**
   * `try_input(prompt, validate)`: writes the prompt and reads an answer; on end
   * of input or an interrupt it writes a newline and exits with status 0,
   * otherwise the validator decides.
   */
  function TryInput<T>(prompt: string, validate: string -> Outcome<T>, input: seq<Answer>): (r: Prompted<T>)
    ensures Cancels(input) ==> r.outcome == Exit(0) && r.out == prompt + "\n"
    ensures !Cancels(input) ==> r.outcome == validate(input[0].text) && r.out == prompt && r.rest == input[1..]
  {
    if |input| == 0 then Prompted(Exit(0), prompt + "\n", [])
    else match input[0]
      case Line(answer) => Prompted(validate(answer), prompt, input[1..])
      case _ => Prompted(Exit(0), prompt + "\n", input[1..])
  }

  /** `accepted_validator`: the answer, lower-cased and stripped, is "y" or "yes". */
  predicate AcceptedValidator(answer: string) {
    Text.Strip(Text.Lower(answer)) in ["y", "yes"]
  }

  /** `n_words_validator`: an empty answer keeps the default, a positive integer is taken, anything else exits with 1. */
  function NWordsValidator(numwords: int, answer: string): (r: Outcome<int>)
    ensures |answer| == 0 ==> r == Done(numwords)
    ensures |answer| > 0 ==> (r.Done? <==> Text.ParseInt(answer).Some? && Text.ParseInt(answer).value >= 1)
    ensures |answer| > 0 && r.Done? ==> r.value == Text.ParseInt(answer).value
    ensures !r.Done? ==> r == Exit(1)
  {
    if |answer| == 0 then Done(numwords)
    else match Text.ParseInt(answer)
      case Some(n) => if n < 1 then Exit(1) else Done(n)
      case None => Exit(1)
  }

  /** Typing the decimal form of a number `n` is accepted exactly when `n >= 1`. */
  lemma NWordsValidatorOnNumbers(numwords: int, n: int)
    ensures NWordsValidator(numwords, Text.IntToString(n)) == if n >= 1 then Done(n) else Exit(1)
  {
    Text.ParseIntRoundTrip(n);
  }

  function NWordsPrompt(numwords: int): string {
    "Enter number of words (default " + Text.IntToString(numwords) + "):\n"
  }

  // ---------------------------------------------------------------------------
  // generate_xkpassword and its accept loop

  /**
   * The state a run has reached: how it ended, everything written to standard
   * output, the answers left unread, and how many times `gen_passwd` was called.
   */
  datatype Run<T> = Run(outcome: Outcome<T>, out: string, rest: seq<Answer>, attempts: nat)

  /** `str(b)` for a Python bool. */
  function PyBool(b: bool): string {
    if b then "True" else "False"
  }

  /** `try_input("Accept? [yN] ", accepted_validator)` */
  function AcceptPrompt(input: seq<Answer>): (p: Prompted<bool>)
    ensures Cancels(input) ==> p.outcome == Exit(0) && p.out == "Accept? [yN] \n"
    ensures !Cancels(input) ==>
      p.outcome == Done(AcceptedValidator(input[0].text)) && p.out == "Accept? [yN] " && p.rest == input[1..]
  {
    TryInput("Accept? [yN] ", answer => Done(AcceptedValidator(answer)), input)
  }

  ghost predicate AllDrawsFit(s: Settings, draws: nat -> Draw) {
    forall k :: DrawFits(s, draws(k))
  }

  /** The `gen_passwd` closure over the settings: its `k`-th call in a run consumes draw `k`. */
  function Generated(s: Settings, draws: nat -> Draw): (gen: nat -> Result<string, Error>)
    requires AllDrawsFit(s, draws)
    ensures forall k :: gen(k) == GenPasswd(s, draws(k))
  {
    (k: nat) => GenPasswd(s, draws(k))
  }

  ghost predicate AlwaysGenerates(gen: nat -> Result<string, Error>) {
    forall k :: gen(k).Success?
  }

  /** Under settings that cannot fail, no call of `gen_passwd` raises. */
  lemma GeneratedNeverRaises(s: Settings, draws: nat -> Draw)
    requires AllDrawsFit(s, draws) && CanGenerate(s)
    ensures AlwaysGenerates(Generated(s, draws))
  {
    var gen := Generated(s, draws);
    forall k ensures gen(k).Success? {
      assert gen(k) == GenPasswd(s, draws(k));
    }
  }

  /**
   * The `while not accepted` loop of `generate_xkpassword`, entered with `out`
   * already written and `attempts` passphrases already generated since call
   * number `start` of `gen_passwd`. Each turn generates a passphrase, prints it,
   * asks whether to accept it and prints the verdict; a refusal starts the next
   * turn, end of input or an interrupt exits with status 0, and a failing
   * `gen_passwd` raises.
   */
  function AcceptLoop(gen: nat -> Result<string, Error>, start: nat, input: seq<Answer>, out: string, attempts: nat): Run<string>
    decreases |input|
  {
    match gen(start + attempts)
    case Failure(e) => Run(Raised(e), out, input, attempts + 1)
    case Success(passwd) =>
      var shown := out + "Generated: " + passwd + "\n";
      var p := AcceptPrompt(input);
      if !p.outcome.Done? then Run(Exit(0), shown + p.out, p.rest, attempts + 1)
      else
        var echoed := shown + p.out + "accepted " + PyBool(p.outcome.value) + "\n";
        if p.outcome.value then Run(Done(passwd), echoed, p.rest, attempts + 1)
        else AcceptLoop(gen, start, p.rest, echoed, attempts + 1)
  }

  function OutcomeOf(r: Result<string, Error>): Outcome<string> {
    match r
    case Success(v) => Done(v)
    case Failure(e) => Raised(e)
  }

  /** `generate_xkpassword`: one passphrase, or the interactive loop when asked for. */
  function Generation(gen: nat -> Result<string, Error>, interactive: bool, start: nat, input: seq<Answer>): Run<string> {
    if interactive then AcceptLoop(gen, start, input, "", 0)
    else Run(OutcomeOf(gen(start)), "", input, 1)
  }

  /** The loop only appends to what was written and always generates at least once more. */
  lemma {:induction false} AcceptLoopExtends(gen: nat -> Result<string, Error>, start: nat, input: seq<Answer>, out: string, attempts: nat)
    ensures var r := AcceptLoop(gen, start, input, out, attempts);
      |out| <= |r.out| && r.out[..|out|] == out && r.attempts > attempts && |r.rest| <= |input|
    decreases |input|
  {
    match gen(start + attempts)
    case Failure(_) =>
    case Success(passwd) =>
      var p := AcceptPrompt(input);
      if p.outcome.Done? && !p.outcome.value {
        var echoed := out + "Generated: " + passwd + "\n" + p.out + "accepted " + PyBool(false) + "\n";
        AcceptLoopExtends(gen, start, p.rest, echoed, attempts + 1);
        assert echoed[..|out|] == out;
      }
  }

  /** What one turn of the accept loop has written once the verdict is printed. */
  function Echoed(out: string, passwd: string, accepted: bool): string {
    out + "Generated: " + passwd + "\n" + "Accept? [yN] " + "accepted " + PyBool(accepted) + "\n"
  }

  /** A turn that reads an answer the validator approves ends the loop with that turn's passphrase. */
  lemma AcceptLoopApproves(gen: nat -> Result<string, Error>, start: nat, input: seq<Answer>, out: string, attempts: nat)
    requires gen(start + attempts).Success? && !Cancels(input) && AcceptedValidator(input[0].text)
    ensures AcceptLoop(gen, start, input, out, attempts) ==
      Run(Done(gen(start + attempts).value), Echoed(out, gen(start + attempts).value, true), input[1..], attempts + 1)
  {
    var p := AcceptPrompt(input);
    assert p.outcome == Done(true);
  }

  /** A turn that reads an answer the validator refuses goes on with the next passphrase. */
  lemma AcceptLoopRefuses(gen: nat -> Result<string, Error>, start: nat, input: seq<Answer>, out: string, attempts: nat)
    requires gen(start + attempts).Success? && !Cancels(input) && !AcceptedValidator(input[0].text)
    ensures AcceptLoop(gen, start, input, out, attempts) ==
      AcceptLoop(gen, start, input[1..], Echoed(out, gen(start + attempts).value, false), attempts + 1)
  {
    var p := AcceptPrompt(input);
    assert p.outcome == Done(false);
  }

  /**
   * The accept loop stops at the first answer that `accepted_validator`
   * approves and returns the passphrase generated in that same turn, one
   * passphrase per answer read.
   */
  lemma {:induction false} AcceptLoopAcceptsFirstYes(gen: nat -> Result<string, Error>, start: nat, input: seq<Answer>,
                                                      out: string, attempts: nat, j: nat)
    requires AlwaysGenerates(gen)
    requires j < |input|
    requires forall i :: 0 <= i <= j ==> input[i].Line?
    requires forall i :: 0 <= i < j ==> !AcceptedValidator(input[i].text)
    requires AcceptedValidator(input[j].text)
    ensures AcceptLoop(gen, start, input, out, attempts).outcome == Done(gen(start + attempts + j).value)
    ensures AcceptLoop(gen, start, input, out, attempts).attempts == attempts + j + 1
    ensures AcceptLoop(gen, start, input, out, attempts).rest == input[j + 1..]
    decreases j
  {
    assert gen(start + attempts).Success?;
    if j == 0 {
      AcceptLoopApproves(gen, start, input, out, attempts);
    } else {
      assert input[0].Line? && !AcceptedValidator(input[0].text);
      AcceptLoopRefuses(gen, start, input, out, attempts);
      var tail := input[1..];
      assert forall i :: 0 <= i < |tail| ==> tail[i] == input[i + 1];
      AcceptLoopAcceptsFirstYes(gen, start, tail, Echoed(out, gen(start + attempts).value, false), attempts + 1, j - 1);
      assert tail[j..] == input[j + 1..];
    }
  }

  /** End of input or an interrupt before any approved answer ends the loop with exit status 0. */
  lemma {:induction false} AcceptLoopCancelled(gen: nat -> Result<string, Error>, start: nat, input: seq<Answer>,
                                               out: string, attempts: nat, j: nat)
    requires AlwaysGenerates(gen)
    requires j <= |input|
    requires forall i :: 0 <= i < j ==> input[i].Line? && !AcceptedValidator(input[i].text)
    requires j == |input| || !input[j].Line?
    ensures AcceptLoop(gen, start, input, out, attempts).outcome == Exit(0)
    ensures AcceptLoop(gen, start, input, out, attempts).attempts == attempts + j + 1
    decreases j
  {
    assert gen(start + attempts).Success?;
    if j > 0 {
      assert input[0].Line? && !AcceptedValidator(input[0].text);
      AcceptLoopRefuses(gen, start, input, out, attempts);
      AcceptLoopCancelled(gen, start, input[1..], Echoed(out, gen(start + attempts).value, false), attempts + 1, j - 1);
    }
  }

  /** Scripted answers "n" then "y": two passphrases are generated and the second is returned. */
  lemma AcceptLoopNoThenYes(gen: nat -> Result<string, Error>)
    requires AlwaysGenerates(gen)
    ensures Generation(gen, true, 0, [Line("n"), Line("y")]).attempts == 2
    ensures Generation(gen, true, 0, [Line("n"), Line("y")]).outcome == Done(gen(1).value)
  {
    var input := [Line("n"), Line("y")];
    assert Text.Strip(Text.Lower("n")) == "n" by { Text.StripFixed("n"); }
    assert Text.Strip(Text.Lower("y")) == "y" by { Text.StripFixed("y"); }
    AcceptLoopAcceptsFirstYes(gen, 0, input, "", 0, 1);
  }

  /** End of input at the first prompt: one passphrase is shown, none is returned, exit status 0. */
  lemma AcceptLoopImmediateEnd(gen: nat -> Result<string, Error>)
    requires AlwaysGenerates(gen)
    ensures Generation(gen, true, 0, []).outcome == Exit(0)
    ensures Generation(gen, true, 0, []).out == "Generated: " + gen(0).value + "\n" + "Accept? [yN] \n"
  {
    assert gen(0).Success?;
    assert "" + "Generated: " == "Generated: ";
  }

  /**
   * `generate_xkpassword`, with the accept loop written as the source's
   * `while not accepted`. `genPasswd` is the `gen_passwd` closure the function
   * builds over its settings, `Generated(s, draws)`, and `start` counts the
   * calls of it made earlier in the run.
   */
  method GenerateXkPassword(genPasswd: nat -> Result<string, Error>, interactive: bool, start: nat, input: seq<Answer>)
    returns (r: Run<string>)
    ensures r == Generation(genPasswd, interactive, start, input)
  {
    if !interactive {
      return Run(OutcomeOf(genPasswd(start)), "", input, 1);
    }
    var out := "";
    var attempts: nat := 0;
    var rest := input;
    var accepted := false;
    var passwd := "";
    while !accepted
      invariant !accepted ==> AcceptLoop(genPasswd, start, rest, out, attempts) == AcceptLoop(genPasswd, start, input, "", 0)
      invariant accepted ==> Run(Done(passwd), out, rest, attempts) == AcceptLoop(genPasswd, start, input, "", 0)
      decreases |rest|, if accepted then 0 else 1
    {
      var g := genPasswd(start + attempts);
      if g.Failure? {
        return Run(Raised(g.error), out, rest, attempts + 1);
      }
      passwd := g.value;
      out := out + "Generated: " + passwd + "\n";
      var p := AcceptPrompt(rest);
      out := out + p.out;
      if !p.outcome.Done? {
        return Run(Exit(0), out, p.rest, attempts + 1);
      }
      accepted := p.outcome.value;
      out := out + "accepted " + PyBool(accepted) + "\n";
      rest := p.rest;
      attempts := attempts + 1;
    }
    return Run(Done(passwd), out, rest, attempts);
  }

  // ---------------------------------------------------------------------------
  // The options namespace, initialize_interactive_run and emit_passwords

  /** The parsed command-line options the engine reads; `numwords` is the one it updates. */
  class Options {
    var numwords: int
    var count: int
    var interactive: bool
    var delimiter: string
    var separator: string
    var caseMethod: CaseMethod
    var paddingDigits: bool
    var paddingDigitsNum: int

    constructor (numwords: int, count: int, interactive: bool, delimiter: string, separator: string,
                 caseMethod: CaseMethod, paddingDigits: bool, paddingDigitsNum: int)
      ensures this.numwords == numwords && this.count == count && this.interactive == interactive
      ensures this.delimiter == delimiter && this.separator == separator && this.caseMethod == caseMethod
      ensures this.paddingDigits == paddingDigits && this.paddingDigitsNum == paddingDigitsNum
    {
      this.numwords := numwords;
      this.count := count;
      this.interactive := interactive;
      this.delimiter := delimiter;
      this.separator := separator;
      this.caseMethod := caseMethod;
      this.paddingDigits := paddingDigits;
      this.paddingDigitsNum := paddingDigitsNum;
    }

    /** The arguments `emit_passwords` passes on to `generate_xkpassword`. */
    function SettingsFor(wordlist: seq<string>): Settings
      reads this
    {
      Settings(wordlist, numwords, delimiter, caseMethod, paddingDigits, paddingDigitsNum)
    }
  }

  /** The word-count prompt: `try_input` with `n_words_validator`. */
  function ReadNumWords(numwords: int, input: seq<Answer>): Prompted<int> {
    TryInput(NWordsPrompt(numwords), answer => NWordsValidator(numwords, answer), input)
  }

  /**
   * The outcomes of the word-count prompt: an empty line keeps the default, the
   * decimal form of a positive number sets it, a number below 1 exits with 1,
   * and end of input or an interrupt exits with 0.
   */
  lemma ReadNumWordsOutcomes(numwords: int, input: seq<Answer>, n: int)
    ensures Cancels(input) ==> ReadNumWords(numwords, input).outcome == Exit(0)
    ensures |input| > 0 && input[0] == Line("") ==> ReadNumWords(numwords, input).outcome == Done(numwords)
    ensures |input| > 0 && input[0] == Line(Text.IntToString(n)) ==>
      ReadNumWords(numwords, input).outcome == if n >= 1 then Done(n) else Exit(1)
  {
    NWordsValidatorOnNumbers(numwords, n);
  }

  /** `initialize_interactive_run` (word-count branch): prompt for and store the number of words. */
  method InitializeInteractiveRun(options: Options, input: seq<Answer>) returns (p: Prompted<int>)
    modifies options
    ensures p == ReadNumWords(old(options.numwords), input)
    ensures options.numwords == if p.outcome.Done? then p.outcome.value else old(options.numwords)
    ensures options.count == old(options.count) && options.interactive == old(options.interactive)
    ensures options.delimiter == old(options.delimiter) && options.separator == old(options.separator)
    ensures options.caseMethod == old(options.caseMethod) && options.paddingDigits == old(options.paddingDigits)
    ensures options.paddingDigitsNum == old(options.paddingDigitsNum)
  {
    p := ReadNumWords(options.numwords, input);
    if p.outcome.Done? {
      options.numwords := p.outcome.value;
    }
  }

  /**
   * The `while count > 0` loop of `emit_passwords`, entered with `count`
   * passphrases still to print, `out` already written and `next` calls of
   * `gen_passwd` made: each passphrase is printed followed by the separator.
   */
  function Emission(gen: nat -> Result<string, Error>, interactive: bool, separator: string, count: int,
                    next: nat, input: seq<Answer>, out: string): Run<()>
    decreases Times(count)
  {
    if count <= 0 then Run(Done(()), out, input, next)
    else
      var g := Generation(gen, interactive, next, input);
      match g.outcome
      case Done(passwd) =>
        Emission(gen, interactive, separator, count - 1, next + g.attempts, g.rest, out + g.out + passwd + separator)
      case Exit(code) => Run(Exit(code), out + g.out, g.rest, next + g.attempts)
      case Raised(e) => Run(Raised(e), out + g.out, g.rest, next + g.attempts)
  }

  /**
   * `emit_passwords`. Every turn of its loop calls `generate_xkpassword`;
   * `genPasswd` is the closure those calls build, which `EmitPasswordsFor`
   * supplies as `Generated(options.SettingsFor(wordlist), draws)`.
   */
  method EmitPasswords(options: Options, genPasswd: nat -> Result<string, Error>, input: seq<Answer>)
    returns (r: Run<()>)
    ensures r == Emission(genPasswd, options.interactive, options.separator, options.count, 0, input, "")
  {
    var count := options.count;
    var out := "";
    var next: nat := 0;
    var rest := input;
    while count > 0
      invariant Emission(genPasswd, options.interactive, options.separator, count, next, rest, out) ==
        Emission(genPasswd, options.interactive, options.separator, options.count, 0, input, "")
      decreases count
    {
      var g := GenerateXkPassword(genPasswd, options.interactive, next, rest);
      if !g.outcome.Done? {
        var outcome: Outcome<()> := if g.outcome.Exit? then Exit(g.outcome.code) else Raised(g.outcome.error);
        return Run(outcome, out + g.out, g.rest, next + g.attempts);
      }
      out := out + g.out + g.outcome.value + options.separator;
      next := next + g.attempts;
      rest := g.rest;
      count := count - 1;
    }
    return Run(Done(()), out, rest, next);
  }

  /** The passphrases of a batch run: call `next + i` of `gen_passwd` makes the `i`-th. */
  function Passwords(gen: nat -> Result<string, Error>, next: nat, n: nat): (ps: seq<string>)
    requires AlwaysGenerates(gen)
    ensures |ps| == n
  {
    seq(n, i requires 0 <= i < n => gen(next + i).value)
  }

  /** Every string followed by the separator, all concatenated. */
  function Terminated(ps: seq<string>, separator: string): string
    decreases |ps|
  {
    if |ps| == 0 then "" else ps[0] + separator + Terminated(ps[1..], separator)
  }

  /** A batch run writes exactly `count` passphrases, each followed by the separator, and nothing else. */
  lemma {:induction false} BatchEmission(gen: nat -> Result<string, Error>, separator: string, count: int,
                                         next: nat, input: seq<Answer>, out: string)
    requires AlwaysGenerates(gen)
    ensures Emission(gen, false, separator, count, next, input, out) ==
      Run(Done(()), out + Terminated(Passwords(gen, next, Times(count)), separator), input, next + Times(count))
    decreases Times(count)
  {
    var ps := Passwords(gen, next, Times(count));
    if count <= 0 {
      assert out + "" == out;
    } else {
      assert gen(next).Success?;
      var printed := out + "" + ps[0] + separator;
      BatchEmission(gen, separator, count - 1, next + 1, input, printed);
      assert ps[1..] == Passwords(gen, next + 1, Times(count - 1));
      var t := Terminated(ps[1..], separator);
      assert printed + t == out + (ps[0] + separator + t);
    }
  }

  /**
   * The separator occurs once per passphrase in the output when no passphrase
   * holds its first character: each passphrase is scanned past, and each
   * separator is matched where it was printed.
   */
  lemma {:induction false} TerminatedCount(ps: seq<string>, separator: string)
    requires |separator| > 0
    requires forall k :: 0 <= k < |ps| ==> Text.Avoids(ps[k], x => x == separator[0])
    ensures Text.CountSub(Terminated(ps, separator), separator) == |ps|
    decreases |ps|
  {
    if |ps| > 0 {
      var t := Terminated(ps[1..], separator);
      assert forall k :: 0 <= k < |ps[1..]| ==> ps[1..][k] == ps[k + 1];
      TerminatedCount(ps[1..], separator);
      assert ps[0] + separator + t == ps[0] + (separator + t);
      assert forall i :: 0 <= i < |ps[0]| ==> ps[0][i] != separator[0];
      Text.CountSubSkip(ps[0], separator + t, separator);
      Text.CountSubLeading(separator, t);
    }
  }

  lemma {:induction false} TerminatedAvoids(ps: seq<string>, separator: string, bad: char -> bool)
    requires Text.Avoids(separator, bad)
    requires forall k :: 0 <= k < |ps| ==> Text.Avoids(ps[k], bad)
    ensures Text.Avoids(Terminated(ps, separator), bad)
    decreases |ps|
  {
    if |ps| > 0 {
      TerminatedAvoids(ps[1..], separator, bad);
      Text.AvoidsConcat(ps[0], separator, bad);
      Text.AvoidsConcat(ps[0] + separator, Terminated(ps[1..], separator), bad);
    }
  }

  /**
   * The separator tests of a batch run: `output.count(separator)` is `count`
   * when the words and the delimiter lack the separator's first character and
   * that character is uncased (and no digit, when padding is on), as for the
   * newline of the default separator and for "!@#$%".
   */
  lemma BatchSeparatorCount(s: Settings, separator: string, count: int, draws: nat -> Draw, input: seq<Answer>)
    requires AllDrawsFit(s, draws) && CanGenerate(s)
    requires |separator| > 0 && !Text.IsCasedChar(separator[0])
    requires s.paddingDigits ==> !Text.IsDigitChar(separator[0])
    requires forall w :: w in s.wordlist ==> Text.Avoids(w, x => x == separator[0])
    requires Text.Avoids(s.delimiter, x => x == separator[0])
    ensures Text.CountSub(Emission(Generated(s, draws), false, separator, count, 0, input, "").out, separator) == Times(count)
  {
    var gen := Generated(s, draws);
    GeneratedNeverRaises(s, draws);
    BatchEmission(gen, separator, count, 0, input, "");
    var ps := Passwords(gen, 0, Times(count));
    forall k | 0 <= k < |ps| ensures Text.Avoids(ps[k], x => x == separator[0]) {
      PasswordAvoids(s, draws(k), x => x == separator[0]);
    }
    TerminatedCount(ps, separator);
    assert "" + Terminated(ps, separator) == Terminated(ps, separator);
  }

  /**
   * A batch run writes no character of an uncased class that the words, the
   * delimiter and the separator avoid, and that holds no digit when padding is
   * on: without padding no digit at all, and with or without padding no
   * newline when the separator is empty.
   */
  lemma BatchAvoids(s: Settings, separator: string, count: int, draws: nat -> Draw, input: seq<Answer>, bad: char -> bool)
    requires AllDrawsFit(s, draws) && CanGenerate(s)
    requires forall c :: bad(c) ==> !Text.IsCasedChar(c)
    requires s.paddingDigits ==> forall c :: bad(c) ==> !Text.IsDigitChar(c)
    requires forall w :: w in s.wordlist ==> Text.Avoids(w, bad)
    requires Text.Avoids(s.delimiter, bad) && Text.Avoids(separator, bad)
    ensures Text.Avoids(Emission(Generated(s, draws), false, separator, count, 0, input, "").out, bad)
  {
    var gen := Generated(s, draws);
    GeneratedNeverRaises(s, draws);
    BatchEmission(gen, separator, count, 0, input, "");
    var ps := Passwords(gen, 0, Times(count));
    forall k | 0 <= k < |ps| ensures Text.Avoids(ps[k], bad) {
      PasswordAvoids(s, draws(k), bad);
    }
    TerminatedAvoids(ps, separator, bad);
    assert "" + Terminated(ps, separator) == Terminated(ps, separator);
  }

  /**
   * `emit_passwords(wordlist, options)` with `gen_passwd` built from the options,
   * as every `generate_xkpassword` call of its loop builds it. In a batch run
   * that cannot raise, it prints `options.count` passphrases and reads no input;
   * the separator occurs once per passphrase, and without padding a digit-free
   * word list, delimiter and separator give a digit-free output.
   */
  method EmitPasswordsFor(wordlist: seq<string>, options: Options, draws: nat -> Draw, input: seq<Answer>)
    returns (r: Run<()>)
    requires AllDrawsFit(options.SettingsFor(wordlist), draws)
    ensures r == Emission(Generated(options.SettingsFor(wordlist), draws), options.interactive,
                          options.separator, options.count, 0, input, "")
    ensures !options.interactive && CanGenerate(options.SettingsFor(wordlist)) ==>
      r.outcome == Done(()) && r.rest == input && r.attempts == Times(options.count)
    ensures var s, sep := options.SettingsFor(wordlist), options.separator;
      !options.interactive && CanGenerate(s) &&
      |sep| > 0 && !Text.IsCasedChar(sep[0]) && (s.paddingDigits ==> !Text.IsDigitChar(sep[0])) &&
      (forall w :: w in wordlist ==> Text.Avoids(w, x => x == sep[0])) && Text.Avoids(s.delimiter, x => x == sep[0]) ==>
        Text.CountSub(r.out, sep) == Times(options.count)
    ensures !options.interactive && CanGenerate(options.SettingsFor(wordlist)) && !options.paddingDigits &&
            (forall w :: w in wordlist ==> Text.Avoids(w, Text.IsDigitChar)) &&
            Text.Avoids(options.delimiter, Text.IsDigitChar) && Text.Avoids(options.separator, Text.IsDigitChar) ==>
      Text.Avoids(r.out, Text.IsDigitChar)
  {
    var s := options.SettingsFor(wordlist);
    r := EmitPasswords(options, Generated(s, draws), input);
    if !options.interactive && CanGenerate(s) {
      GeneratedNeverRaises(s, draws);
      BatchEmission(Generated(s, draws), options.separator, options.count, 0, input, "");
      var sep := options.separator;
      if |sep| > 0 && !Text.IsCasedChar(sep[0]) && (s.paddingDigits ==> !Text.IsDigitChar(sep[0])) &&
         (forall w :: w in wordlist ==> Text.Avoids(w, x => x == sep[0])) && Text.Avoids(s.delimiter, x => x == sep[0]) {
        BatchSeparatorCount(s, sep, options.count, draws, input);
      }
      if !options.paddingDigits && (forall w :: w in wordlist ==> Text.Avoids(w, Text.IsDigitChar)) &&
         Text.Avoids(options.delimiter, Text.IsDigitChar) && Text.Avoids(options.separator, Text.IsDigitChar) {
        BatchAvoids(s, options.separator, options.count, draws, input, Text.IsDigitChar);
      }
    }
  }
}
