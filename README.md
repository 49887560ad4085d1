# xkpassgen passphrase engine in Dafny

This project models the passphrase engine of `xkpassgen`. The engine builds
"XKCD-style" passphrases:

- it filters a word file down to a list of candidate words;
- it draws words from that list at random;
- it changes their letter case with one of six strategies;
- it joins them with a delimiter, and can append a random decimal padding number;
- in interactive mode it prompts for the word count and asks the user to accept each passphrase (from the command line this mode does not get that far; see "Left out");
- it prints `count` passphrases, each followed by a separator.

The model has five modules:

- `Wrappers`: `Option` and `Result`.
- `Text`: the Python `str` operations the engine and its tests use, on ASCII text. These are `lower`, `upper`, `capitalize`, `islower`, `isupper`, `istitle`, `strip`, `join`, `count` of a substring, `str(int)` and `int(str)`.
- `Case`: the six case strategies of `src/xkpassgen/lib/case.py`.
- `XkcdPassCase`: the renamed copy of the same strategies in `src/xkcd_pass/lib/case.py`, with a proof that the two copies agree.
- `XkPassGen`: the engine of `src/xkpassgen/xkpassgen.py`.

How the outside world is represented:

- **Randomness** is supplied by the caller as oracle values.
  - `Draw.picks` holds, for each `rng().choice` call, the index in the list of the element that call returns.
  - `Draw.padding` is the number `randint` would return. It is required to lie within the bounds the source passes to `randint`.
  - `Case.Rng` gives the coin flips of `random_case`. Its `seeded` part is the coin drawn after `random.seed(word)`, and depends on the word alone.
  - The `k`-th call of `gen_passwd` in a run consumes `draws(k)`. `Generated(s, draws)` is that closure.
- **Standard input** is a list of scripted `Answer`s. Each answer is a line, end of input, or an interrupt.
- **Standard output** is the string a run writes. `Run.out` holds it.
- **`sys.exit(code)`** is the outcome `Exit(code)`.
- **An exception raised** by `choice` on an empty list, or by `randint` with bad bounds, is the outcome `Raised(e)`.

The operations that change state in the source are imperative in the model:

- `generate_wordlist` is a loop that adds to a set. It is followed by `list(set)`.
- The `while not accepted` loop of `generate_xkpassword`.
- The `while count > 0` loop of `emit_passwords`.
- The assignment of `options.numwords` in `initialize_interactive_run`. Here `Options` is a class.

Each of these methods is proven against a specification function (`Filtered`, `AcceptLoop`/`Generation`, `Emission`, `ReadNumWords`). The lemmas then prove the source's promises about those functions.

Three behaviours of the code that are easy to overlook are modelled as written:

- The code does not check that the word count and the padding width are positive:
  - a non-positive word count gives an empty word list, joined to `""`;
  - a padding width below 1 makes `randint` raise.
- `generate_wordlist` itself raises `max` to `min` when `min > max` (`EffectiveMax`).
- A cancelled prompt prints an empty line (a newline) before `sys.exit(0)`, and the model writes that newline.

## Model

| member | source | states |
|---|---|---|
| XkPassGen.LookupCaseMethod | src/xkpassgen/xkpassgen.py:18-25 | `CASE_METHODS` holds exactly the six method names; a name is found iff it names a case method |
| XkPassGen.SetCase | src/xkpassgen/xkpassgen.py:82-100 | `set_case` dispatches to the strategy; random with `testing` uses the seeded coin; the result holds the input words, same length and order, up to case |
| XkPassGen.EffectiveMax | src/xkpassgen/xkpassgen.py:110-111 | when `min_length > max_length` the maximum becomes `min_length`; it is never lowered |
| XkPassGen.FilteredMembers | src/xkpassgen/xkpassgen.py:114-122 | a word is in the set iff it is `strip()` of some line and fully matches `^C{min,max}$` with the effective maximum |
| XkPassGen.Filtered | src/xkpassgen/xkpassgen.py:114-122 | the set `words` after the read loop: each line in order, stripped, is added when it matches (definition; its members are characterised by `FilteredMembers`) |
| XkPassGen.StrippedLine | src/xkpassgen/xkpassgen.py:120 | a word is `line.strip()` of one of the lines (definition used by the filter's contracts) |
| XkPassGen.ListOfSet | src/xkpassgen/xkpassgen.py:124 | `list(words)` has exactly the members of the set, each once |
| XkPassGen.GenerateWordlist | src/xkpassgen/xkpassgen.py:103-124 | the returned list is exactly the set the read loop builds. Every word has its length in `[min, effective max]`, only valid characters, and is the stripped form of some line. Every matching stripped line is in the list, and there are no duplicates |
| XkPassGen.FilterIdempotent | src/xkpassgen/xkpassgen.py:114-124 | filtering the returned word list again with the same bounds and class yields the same words |
| XkPassGen.ChooseWords | src/xkpassgen/xkpassgen.py:147-152 | `choose_words` raises iff words are requested from an empty list; otherwise it returns exactly `numwords` words (none for `numwords <= 0`), each a member of the list |
| XkPassGen.ChooseFromSingleton | src/xkpassgen/xkpassgen.py:147-152 | from a one-word list every chosen word is that word, and there are `numwords` of them |
| XkPassGen.ChooseWordsReachesEverySequence | src/xkpassgen/xkpassgen.py:147-152 | draws are with replacement: every sequence of listed words, repetitions included, is a possible result |
| XkPassGen.GenerateRandomPaddingNumbers | src/xkpassgen/xkpassgen.py:154-160 | for width `d >= 1` the number lies in `[10^(d-1), 10^d - 1]`, and its decimal form has exactly `d` digits with no leading zero; for `d < 1` `randint` raises |
| XkPassGen.GenPasswd | src/xkpassgen/xkpassgen.py:188-194 | `gen_passwd` succeeds iff words are not drawn from an empty list and the padding width, when padding is on, is at least 1 |
| XkPassGen.PasswordDigits | src/xkpassgen/xkpassgen.py:188-194 | with digit-free words and delimiter, a passphrase without padding contains no digit; with padding of width `d`, its digits are exactly the last `d` characters, the first of them not '0' |
| XkPassGen.PasswordAvoids | src/xkpassgen/xkpassgen.py:188-194 | a passphrase contains no uncased character that the words and the delimiter lack, except that with padding on a digit may come from the padding |
| XkPassGen.CasedWordsAvoid | src/xkpassgen/xkpassgen.py:189-194 | case changes applied to the chosen words add no uncased character absent from the word list |
| XkPassGen.TryInput | src/xkpassgen/xkpassgen.py:162-176 | `try_input` writes the prompt. On end of input or an interrupt it writes a newline and exits with 0. Otherwise it returns the validator's verdict on the line and consumes it |
| XkPassGen.AcceptPrompt | src/xkpassgen/xkpassgen.py:203-212 | the accept prompt yields `True` exactly when the answer, lower-cased and stripped, is "y" or "yes"; a cancelled prompt exits with 0 |
| XkPassGen.AcceptedValidator | src/xkpassgen/xkpassgen.py:203-204 | `accepted_validator`: `answer.lower().strip()` is "y" or "yes" (definition) |
| XkPassGen.NWordsValidator | src/xkpassgen/xkpassgen.py:218-232 | an empty answer gives the default word count. A non-empty answer is accepted iff `int()` parses it to a value `>= 1`, and then that value is returned. An answer that is not accepted exits with status 1 |
| XkPassGen.NWordsValidatorOnNumbers | src/xkpassgen/xkpassgen.py:223-232 | typing `str(n)` yields `n` when `n >= 1` and exit status 1 otherwise |
| XkPassGen.ReadNumWordsOutcomes | src/xkpassgen/xkpassgen.py:234-238 | the word-count prompt: an empty line keeps the default, `str(n)` sets `n` if positive and exits with 1 otherwise, and a cancelled prompt exits with 0 |
| XkPassGen.ReadNumWords | src/xkpassgen/xkpassgen.py:234-238 | the word-count prompt `try_input(n_words_prompt, n_words_validator)` with the prompt text of :235 (definition; outcomes in `ReadNumWordsOutcomes`) |
| XkPassGen.InitializeInteractiveRun | src/xkpassgen/xkpassgen.py:217-238 | `options.numwords` becomes the prompt's value when it yields one. Every other option is unchanged |
| XkPassGen.Options.constructor | src/xkpassgen/xkpassgen.py:243-259 | the options namespace holds the values `emit_passwords` and `generate_xkpassword` read |
| XkPassGen.GeneratedNeverRaises | src/xkpassgen/xkpassgen.py:188-194 | with a non-empty list (or no words wanted) and a padding width of at least 1 (or no padding), no call of `gen_passwd` raises |
| XkPassGen.AcceptLoop | src/xkpassgen/xkpassgen.py:207-214 | the `while not accepted` loop: generate, print "Generated: ", prompt, print "accepted" and the verdict, repeat on a refusal; a cancel exits with 0 and a failing `gen_passwd` raises (definition; properties in the `AcceptLoop*` lemmas) |
| XkPassGen.Generation | src/xkpassgen/xkpassgen.py:179-214 | `generate_xkpassword`: one `gen_passwd` call when not interactive, the accept loop otherwise (definition; computed by `GenerateXkPassword`) |
| XkPassGen.AcceptLoopExtends | src/xkpassgen/xkpassgen.py:207-214 | the accept loop only appends to the output, calls `gen_passwd` at least once, and never un-reads input |
| XkPassGen.AcceptLoopApproves | src/xkpassgen/xkpassgen.py:209-214 | a turn whose answer is approved prints "Generated: ...", the prompt and "accepted True", and returns that turn's passphrase |
| XkPassGen.AcceptLoopRefuses | src/xkpassgen/xkpassgen.py:209-214 | a turn whose answer is refused prints "Generated: ...", the prompt and "accepted False", and continues with the next passphrase |
| XkPassGen.AcceptLoopAcceptsFirstYes | src/xkpassgen/xkpassgen.py:162-214 | the loop stops at the first approved answer. It returns the passphrase generated in that same turn, after one `gen_passwd` call per answer read, with the later answers left unread |
| XkPassGen.AcceptLoopCancelled | src/xkpassgen/xkpassgen.py:162-214 | end of input or an interrupt before any approved answer ends the loop with exit status 0 and no passphrase, after one generation per answer read plus one |
| XkPassGen.AcceptLoopNoThenYes | src/xkpassgen/xkpassgen.py:207-214 | with answers "n" then "y", exactly two passphrases are generated and the second is returned |
| XkPassGen.AcceptLoopImmediateEnd | src/xkpassgen/xkpassgen.py:162-214 | with no input at all, one passphrase is shown, the run exits with 0 and returns none; the output is the passphrase line, the prompt and the newline |
| XkPassGen.GenerateXkPassword | src/xkpassgen/xkpassgen.py:179-214 | `generate_xkpassword` returns one `gen_passwd` result when not interactive; otherwise its `while not accepted` loop computes exactly the accept loop's run (outcome, output, unread input, generations) |
| XkPassGen.EmitPasswords | src/xkpassgen/xkpassgen.py:243-259 | the `while count > 0` loop computes exactly the emission run: each passphrase is printed with the separator as its line end, and a cancelled or raising generation ends the run |
| XkPassGen.EmitPasswordsFor | src/xkpassgen/xkpassgen.py:243-259 | `emit_passwords(wordlist, options)` with `gen_passwd` built from the options' fields, as :247-255 pass them: its run is the emission run; a batch run that cannot raise prints `count` passphrases and reads no input, `output.count(separator) == count` for a non-empty separator whose first character is uncased, absent from the words and the delimiter, and no digit when padding is on; without padding digit-free inputs give a digit-free output |
| XkPassGen.Emission | src/xkpassgen/xkpassgen.py:243-259 | the `while count > 0` loop: each passphrase printed with `end=separator`, `count` decremented, a cancel or an exception ending the run (definition; computed by `EmitPasswords`, characterised for batch runs by `BatchEmission`) |
| XkPassGen.BatchEmission | src/xkpassgen/xkpassgen.py:243-259 | a non-interactive run writes exactly `count` passphrases (none for `count <= 0`), each followed by the separator, nothing else, and reads no input |
| XkPassGen.TerminatedCount | src/xkpassgen/xkpassgen.py:247-257 | when no passphrase holds the separator's first character, `output.count(separator)` finds the separator exactly once per passphrase |
| XkPassGen.TerminatedAvoids | src/xkpassgen/xkpassgen.py:247-257 | the output contains no character that the passphrases and the separator lack |
| XkPassGen.BatchSeparatorCount | tests/test_xkpassgen.py:142-169 | with or without padding, `output.count(separator)` of a batch run is `count`, for a non-empty separator whose first character is uncased, absent from the words and the delimiter, and no digit when padding is on (the newline, "!@#$%") |
| XkPassGen.BatchAvoids | tests/test_xkpassgen.py:171-191 | a batch run's output contains no uncased character that the words, delimiter and separator lack and, with padding on, that is no digit: no digit at all without padding, and no newline for an empty separator with or without padding |
| Case.AlternatingCase | src/xkpassgen/lib/case.py:4-10 | `alternating_case` (definition; properties in `AlternatingCaseSpec`) |
| Case.UpperCase | src/xkpassgen/lib/case.py:13-17 | `upper_case` (definition; properties in `UpperCaseSpec`) |
| Case.FirstUpperCase | src/xkpassgen/lib/case.py:20-24 | `first_upper_case` (definition; properties in `CapitalizeCaseSpec`) |
| Case.LowerCase | src/xkpassgen/lib/case.py:27-31 | `lower_case` (definition; properties in `LowerCaseSpec`) |
| Case.CapitalizeCase | src/xkpassgen/lib/case.py:34-38 | `capitalize_case` (definition; properties in `CapitalizeCaseSpec`) |
| Case.RandomCase | src/xkpassgen/lib/case.py:41-56 | `random_case`, its coin supplied by `MakeUpperCoin` (definition; properties in `RandomCaseSpec` and `RandomCaseSeeded`) |
| Case.LowerCaseSpec | src/xkpassgen/lib/case.py:27-31 | `lower_case` maps each word to its `lower()`, keeping length and order; every word with a letter comes out `islower()` |
| Case.UpperCaseSpec | src/xkpassgen/lib/case.py:13-17 | `upper_case` keeps the words up to case, in order; every word with a letter comes out `isupper()` |
| Case.CapitalizeCaseSpec | src/xkpassgen/lib/case.py:20-38 | `first_upper_case` and `capitalize_case` are the same function. They keep the words up to case, and turn every non-empty word of letters into an `istitle()` word |
| Case.AlternatingCaseSpec | src/xkpassgen/lib/case.py:4-10 | `alternating_case` gives `upper(w)` at even positions and `lower(w)` at odd ones, so, for every word with a letter, even positions are `isupper()` and odd ones `islower()` |
| Case.RandomCaseSpec | src/xkpassgen/lib/case.py:41-56 | `random_case` gives each word either `lower(w)` or `upper(lower(w))`, as that word's coin decides |
| Case.RandomCaseSeeded | src/xkpassgen/lib/case.py:41-56 | in testing mode the casing of a word depends on its text alone: equal words (up to case) get equal casing in any two lists |
| Case.StrategiesKeepWords | tests/test_xkpassgen.py:39-55 | no strategy adds, drops, reorders or misspells a word: lower-casing the output gives back the lower-cased input, element-wise |
| Case.SeededTestLists | tests/test_xkpassgen.py:63-77 | in the two random-case test lists, "this", "is", "a" and "test" get the same casing in both |
| XkcdPassCase.CaseAlternating | src/xkcd_pass/lib/case.py:5-9 | `case_alternating` (definition; properties in `CaseAlternatingSpec`) |
| XkcdPassCase.CaseUpper | src/xkcd_pass/lib/case.py:12-16 | `case_upper` (definition; properties in `CaseUpperSpec`) |
| XkcdPassCase.CaseFirstUpper | src/xkcd_pass/lib/case.py:19-23 | `case_first_upper` (definition; properties in `CaseCapitalizeSpec`) |
| XkcdPassCase.CaseLower | src/xkcd_pass/lib/case.py:26-30 | `case_lower` (definition; properties in `CaseLowerSpec`) |
| XkcdPassCase.CaseCapitalize | src/xkcd_pass/lib/case.py:33-37 | `case_capitalize` (definition; properties in `CaseCapitalizeSpec`) |
| XkcdPassCase.CaseRandom | src/xkcd_pass/lib/case.py:40-55 | `case_random` (definition; properties in `CaseRandomSpec` and `CaseRandomSeeded`) |
| XkcdPassCase.AgreesWithXkPassGen | src/xkcd_pass/lib/case.py:5-55 | each `case_*` function equals its counterpart in src/xkpassgen/lib/case.py |
| XkcdPassCase.CaseLowerSpec | src/xkcd_pass/lib/case.py:26-30 | `case_lower` keeps the words up to case, in order, and every word with a letter comes out `islower()` |
| XkcdPassCase.CaseUpperSpec | src/xkcd_pass/lib/case.py:12-16 | `case_upper` keeps the words up to case, in order, and every word with a letter comes out `isupper()` |
| XkcdPassCase.CaseCapitalizeSpec | src/xkcd_pass/lib/case.py:19-37 | `case_first_upper` and `case_capitalize` coincide, keep the words up to case and turn every non-empty word of letters into an `istitle()` word |
| XkcdPassCase.CaseAlternatingSpec | src/xkcd_pass/lib/case.py:5-9 | `case_alternating` gives `upper(w)` at even positions and `lower(w)` at odd ones, keeping the words up to case |
| XkcdPassCase.CaseRandomSpec | src/xkcd_pass/lib/case.py:40-55 | `case_random` keeps the words up to case, each coming out as `lower(w)` or `upper(w)` |
| XkcdPassCase.CaseRandomSeeded | src/xkcd_pass/lib/case.py:40-55 | with `testing=True`, the same word gets the same casing in any two lists |
| Text.LowerAfterCasing | tests/test_xkpassgen.py:52-55 | lower-casing undoes `lower`, `upper` and `capitalize`; upper-casing a lower-cased word is upper-casing it |
| Text.LowerIsLower | src/xkpassgen/lib/case.py:27-31 | `lower()` of a word with a letter is `islower()` |
| Text.UpperIsUpper | src/xkpassgen/lib/case.py:13-17 | `upper()` of a word with a letter is `isupper()` |
| Text.CapitalizeIsTitle | src/xkpassgen/lib/case.py:20-38 | `capitalize()` of a non-empty word of letters is `istitle()` |
| Text.StripLeadingSpec | src/xkpassgen/xkpassgen.py:120 | the leading part `strip()` removes is all white space, and what remains is a suffix not starting with white space |
| Text.StripTrailingSpec | src/xkpassgen/xkpassgen.py:120 | the trailing part `strip()` removes is all white space, and what remains is a prefix not ending with white space |
| Text.StripSpec | src/xkpassgen/xkpassgen.py:120 | `line.strip()` is a contiguous slice of the line, with white space removed from both ends, and it neither starts nor ends with white space |
| Text.StripFixed | src/xkpassgen/xkpassgen.py:120 | a string without white space at either end is its own `strip()` |
| Text.StripIdempotent | src/xkpassgen/xkpassgen.py:120 | `strip()` applied twice is `strip()` applied once |
| Text.JoinAvoids | src/xkpassgen/xkpassgen.py:192-194 | `delimiter.join(parts)` contains no character that the parts and the delimiter lack |
| Text.DecimalString | src/xkpassgen/xkpassgen.py:192 | `str(n)` of a natural number is a non-empty run of digits, starting with '0' iff `n` is 0 |
| Text.DecimalLength | src/xkpassgen/xkpassgen.py:154-160 | every number in `[10^(d-1), 10^d - 1]` is written with exactly `d` digits |
| Text.ParseIntRoundTrip | src/xkpassgen/xkpassgen.py:226 | `int(str(n)) == n` for every integer `n` |
| Text.ParseInt | src/xkpassgen/xkpassgen.py:226 | `int(answer)`: optional surrounding white space of the kind `int()` skips (tab to carriage return, and space), an optional sign and decimal digits, anything else a `ValueError` (definition; properties in `ParseIntRoundTrip`, `ParseIntAround` and `SeparatorBeforeNumeral`) |
| Text.TrimNumeral | src/xkpassgen/xkpassgen.py:226 | the white space `int()` skips around a numeral: tab to carriage return and space, not the separators 28-31 that `strip()` also removes (definition; characterised by `TrimNumeralAround`) |
| Text.TrimNumeralAround | src/xkpassgen/xkpassgen.py:226 | tab-to-carriage-return and space before and after a numeral that neither starts nor ends with one of them are dropped, and only they |
| Text.ParseIntAround | src/xkpassgen/xkpassgen.py:226 | `int(pre + str(n) + post) == n` when `pre` and `post` consist of white space that `int()` skips |
| Text.SeparatorBeforeNumeral | src/xkpassgen/xkpassgen.py:226 | an information separator (28-31) in front of a numeral makes `int()` raise `ValueError`, although `strip()` would remove it |
| Text.CountSub | tests/test_xkpassgen.py:155 | `output.count(sub)`: non-overlapping occurrences scanned from the left (definition) |
| Text.CountSubSkip | tests/test_xkpassgen.py:155 | text lacking the first character of `sub` adds no occurrence of it |
| Text.CountSubLeading | tests/test_xkpassgen.py:155 | an occurrence of `sub` at the start counts once, and the scan resumes after it |

## Left out

- `verbose_reports` (src/xkpassgen/xkpassgen.py:127-144) is not modelled, because it computes the entropy with floating-point `math.log` and float formatting.
- `locate_wordfile` and `validate_options` are not modelled, because they depend on the filesystem (`os.path.isfile`, `expanduser`) and on stderr.
- Opening and reading the word file is I/O. The model takes the file's lines as a sequence of strings.
- The regular expression: `valid_chars` can be any regex fragment in the source. The model takes the character class as a predicate on characters and matches `^C{min,max}$` with it.
- XkPassGen.GenerateWordlist: requires `min_length >= 0`. A negative minimum produces a malformed or differently read repetition, which depends on the regex engine.
- XkPassGen.ListOfSet: the order of `list(set)` is left open (any order, each member once), because it depends on Python's hashing.
- Randomness: `SystemRandom` and the Mersenne Twister behind `random.seed(word)` are replaced with oracle values. The model therefore says nothing about uniformity, and it does not reproduce the concrete random-case lists the tests expect for Python 2 and Python 3.
- XkPassGen.GenerateXkPassword and XkPassGen.EmitPasswords receive the `gen_passwd` closure as a parameter instead of building it. `Generated(s, draws)` defines that closure over the settings; `XkPassGen.EmitPasswordsFor` builds it from the options with `Options.SettingsFor` and carries the batch lemmas over to the options.
- XkPassGen.GenerateRandomPaddingNumbers: does not tell apart the exceptions `randint` raises for a width below 1. A float bound and a bound with `a > b` both raise, and the model reports them as one error, `BadPaddingWidth`.
- Text: only ASCII is modelled for case mapping, `isspace`, `islower`, `isupper` and `istitle`. Non-ASCII letters and white space are outside the model.
- Text.ParseInt: models Python's `int()` on ASCII text as an optional sign followed by decimal digits, with surrounding tab-to-carriage-return and space (not the separators 28-31 that `strip()` also removes). It leaves out underscores between digits, non-ASCII digits and non-ASCII white space.
- Messages written to stderr (the "Please enter a positive integer" line) are not modelled. Only the exit status is.
- XkPassGen.InitializeInteractiveRun: models only the word-count branch, as if `options.acrostic` existed and were falsy; the acrostic branch (src/xkpassgen/xkpassgen.py:239-240) is not modelled. The argument parser defines no `acrostic` option, so on the options `parse_args` builds, `options.acrostic` at :234 raises `AttributeError`. Because `main` calls `initialize_interactive_run` whenever `-i` is given (:422-423), from the command line neither the word-count prompt nor the accept loop after it is reached; the model describes both for an options object that does have a falsy `acrostic`.
- Interrupts are modelled only while a prompt waits for input, which is the only place the source catches them.
- XkPassGen.SetCase: takes the case method as the `CaseMethod` datatype, so the `KeyError` that `CASE_METHODS[method]` raises for an unknown name (src/xkpassgen/xkpassgen.py:100) cannot be expressed; from the command line it cannot happen either, because `--case` is restricted to `choices=list(CASE_METHODS.keys())` (:388). `LookupCaseMethod` returns `None` for such a name.
- Default arguments: the defaults of `set_case` (:82), `generate_wordlist` (:103) and `generate_xkpassword` (:179-181) are not modelled; every argument is passed explicitly.
- Left out as command-line glue: the argument parser `XkPassGenArgumentParser`, `main`, `setup.py`, the constants in `src/xkcd_pass/lib/xkcd_default.py`, and the `xkcd_pass` main module, which is not part of this model.
- The options namespace of the `emit_passwords` tests (tests/test_xkpassgen.py:127-137) defines `no_padding_digits` but no `padding_digits`, which `emit_passwords` reads at :254. Run as written, every test of that class raises `AttributeError` there; the model's `Options` always holds `paddingDigits`, and the properties those tests mean to check are `BatchSeparatorCount` and `BatchAvoids`, for padding on and off.
- XkPassGen.NWordsValidator: accepts numerals of any length, while Python versions with the integer string-conversion limit (3.11, and the 3.7.14, 3.8.14, 3.9.14 and 3.10.7 security releases onwards, all allowed by setup.py's `python_requires=">=3.6"`) refuse `int()` of a string of more than 4300 digits with `ValueError`, which would exit with 1 (:230-232).
- XkPassGen.GenPasswd: appends `DecimalString` of the padding number for every width, while the same Python versions refuse `str()` of an integer of more than 4300 digits with `ValueError` (:192), so a `--padding-digits-num` above 4300 raises there; `Success <==> CanGenerate` holds only up to that limit. The same limit would make the `format` of `options.numwords` at :235 raise for a word count of more than 4300 digits, which only an options object not built by the argument parser can hold; the model writes its decimal form.
- XkPassGen.GenerateWordlist: filters for any bounds, while `re.compile` raises `OverflowError` for a repetition bound above the regex engine's `MAXREPEAT` (:116).
