# ph_no_to_word in Dafny

A model of the building blocks of `ph_no_to_word`, a Ruby gem that spells a
ten-digit telephone number as one, two or three dictionary words using the
telephone keypad letters. The model covers:

- the constant tables (`constants.rb`): the keypad letters of digits 2 to 9
  (the assignment of ITU-T Recommendation E.161), the forbidden digits 0 and 1,
  the phone-number length, the error messages, and the word-file locations;
- the phone-number guard (`validator.rb`): an empty number, then a number of
  the wrong length, then a digit list holding 0 or 1, each fails with its own
  error, in that order;
- the search helpers (`helpers.rb`): word-slot numbering, the
  case-insensitive and whitespace-insensitive comparison `cmp`, the pruning
  predicates of the word search, the choice of word file for a candidate
  (`filename_frm_lvl`), and the three accumulators that `set_data_stores`
  initialises when they are nil and `reset_data_stores` clears;
- the dictionary splitter (`split_dictionary.rb`): each stripped dictionary
  line goes to the single level-1 file when it has three letters, to the
  level-2 file named by its first four characters (stripped, lower-cased) when
  it is longer, and nowhere when it is shorter.

Files: `wrappers.dfy` (Option), `ruby_string.dfy` (Ruby `strip`, `downcase`,
`casecmp`, `[0..n]`, `chars`, `Array#&` over ASCII), `constants.dfy`,
`validator.dfy`, `helpers.dfy`, `split_dictionary.dfy`.

Modelling choices:

- The validator and the helper predicates are functions. The accumulators are
  a class `Helpers.DataStores` whose fields are the module's instance variables,
  with `nil` as `None`. The word-file directories are a class
  `SplitDictionary.WordFiles`. Its field `files` maps each word file to its
  lines in order. A word file is `ThreeCharFile` or `PrefixFile(name)`, and
  `Path` gives its path (`PathInjective`: distinct files, distinct paths). The
  `each_line` loop is a `while` loop proved against the function `Bucketed`.
- The file system is a parameter: `SplitFiles` receives the readable files as
  a map from path to lines. Opening, creating and appending to files are map
  updates. `puts` adds its newline as the line boundary of the sequence.
- `PH_LENGTH` is 9 in `constants.rb:22`; the gem's header comment
  (`lib/ph_no_to_word.rb:3`) and its test (`spec/validator_spec.rb:9-13`) say
  10. The model uses 10 and keeps 9 as `PH_LENGTH_AS_WRITTEN` (see Findings).
- `ERRORS` has no `ph_length` entry, so the length error is raised with a nil
  message argument; Ruby's exception then carries its class name as message.
  `Validator.Message` gives the argument passed to `raise`. The test's nil
  message in `raise_error(Klass, nil)` puts no condition on the message.
- `search_again_for_second_thrid_wd?` keeps Ruby's precedence: `&&` binds
  tighter than `||`, so the second word is searched at every position, even
  beyond the array (`Helpers.SecondWordUnbounded`).
- Constants the modelled files use but do not define take the values their
  comments imply: `MIN_WD_LENGTH` 3, `MAX_WD_LEN` 7, `MAX_WD_LEN_INDEX` 6,
  `FORBN_WD_LENS` {7, 8}. `FILE_EXT` is `.txt`. `THREE_CHAR_FILE` is
  `three_char_words.txt`. No property depends on the last two beyond their
  being fixed.
- Ruby's `strip` removes NUL, tab, line feed, vertical tab, form feed,
  carriage return and space at both ends. `casecmp` folds A-Z onto a-z only,
  as Ruby's does. `downcase` is modelled on ASCII only.

## Model

| member | source | states |
|---|---|---|
| `Constants.KeypadDomain` | lib/ph_no_to_word/constants.rb:10-19 | the keypad table is defined for exactly the digits '2' to '9' |
| `Constants.KeypadLetterCounts` | lib/ph_no_to_word/constants.rb:10-19 | 7 and 9 carry four letters, every other digit three |
| `Constants.KeypadSpellsAlphabet` | lib/ph_no_to_word/constants.rb:10-19 | the letter lists, read in digit order, spell a to z |
| `Constants.KeypadDisjoint` | lib/ph_no_to_word/constants.rb:10-19 | no letter is on two keys |
| `Constants.LetterOnOneKey` | lib/ph_no_to_word/constants.rb:10-19 | every lower-case letter is on exactly one key |
| `Constants.ForbiddenNotOnKeypad` | lib/ph_no_to_word/constants.rb:20 | the forbidden digits are "0" and "1", and neither is a key of the keypad table |
| `Constants.LengthBoundsFromPhoneLength` | lib/ph_no_to_word/helpers.rb:54-64 | the maximum word length is the phone length less a shortest word, and the forbidden positions 7 and 8 are exactly those from which 1 or 2 letters remain |
| `RubyString.Strip` | lib/ph_no_to_word/helpers.rb:35 | `strip` returns a slice of its input with only whitespace cut off on each side, beginning and ending with a non-space |
| `RubyString.StripIdempotent` | lib/ph_no_to_word/helpers.rb:35 | stripping twice is stripping once, so `cmp` of an already stripped string is unchanged |
| `RubyString.StripTrimmed` | lib/ph_no_to_word/split_dictionary.rb:30 | a string with no whitespace at either end is its own `strip` |
| `RubyString.StripNoSpace` | lib/ph_no_to_word/split_dictionary.rb:30 | a string without whitespace is its own `strip` |
| `RubyString.StripPadded` | lib/ph_no_to_word/split_dictionary.rb:29-30 | a leading blank and a trailing newline (a dictionary line) are cut by `strip` |
| `RubyString.LStripAppend` | lib/ph_no_to_word/split_dictionary.rb:30 | `lstrip` of a string followed by whitespace keeps that whitespace unless the string was all whitespace |
| `RubyString.LStripAllSpace` | lib/ph_no_to_word/split_dictionary.rb:30 | an all-whitespace string strips to empty |
| `RubyString.LStrip` | lib/ph_no_to_word/helpers.rb:35 | `lstrip` drops exactly the leading whitespace |
| `RubyString.RStrip` | lib/ph_no_to_word/helpers.rb:35 | `rstrip` drops exactly the trailing whitespace |
| `RubyString.Downcase` | lib/ph_no_to_word/split_dictionary.rb:66 | ASCII lower-casing, character by character, keeping the length |
| `RubyString.DowncaseLower` | lib/ph_no_to_word/split_dictionary.rb:66 | lower-case text is its own `downcase` |
| `RubyString.CaseCmp` | lib/ph_no_to_word/helpers.rb:35 | `casecmp` returns -1, 0 or 1 |
| `RubyString.CaseCmpZeroIff` | lib/ph_no_to_word/helpers.rb:35 | `casecmp` is zero exactly when the two strings are equal after ASCII case folding |
| `RubyString.CaseCmpAntisymmetric` | lib/ph_no_to_word/helpers.rb:35 | swapping the arguments of `casecmp` negates the result |
| `RubyString.Take` | lib/ph_no_to_word/helpers.rb:121-124 | `str[0..n-1]`, for positive n, is the prefix of length n, or all of a shorter string |
| `RubyString.Chars` | lib/ph_no_to_word/validator.rb:20 | `ph_no.chars`, the digit list of the example: one single-character string per character, same length |
| `RubyString.ArrayAnd` | lib/ph_no_to_word/validator.rb:27 | `ph_ary & FORBIDDEN_NOS` holds exactly the elements in both arrays, each once |
| `Validator.ValidateWithLength` | lib/ph_no_to_word/validator.rb:21-30 | missing exactly for the empty number; length error exactly for a non-empty number of the wrong length; digit error exactly for a right-length number whose digit list holds "0" or "1"; success otherwise |
| `Validator.Validate` | lib/ph_no_to_word/validator.rb:21-30 | `validate`, the guard with the phone length 10; its outcomes are those of `ValidateWithLength` |
| `Validator.ValidateAsWritten` | lib/ph_no_to_word/constants.rb:22 | `validate` with the phone length 9 that the source sets |
| `Validator.Raises` | lib/ph_no_to_word/validator.rb:22-29 | success raises nothing; only the empty number raises RequiredArgumentMissingError, and both other failures raise MalformattedArgumentError |
| `Validator.Message` | lib/ph_no_to_word/validator.rb:22-29 | the message argument passed to `raise` is the `ERRORS` entry; for the length error it is nil, since the key `ph_length` is absent |
| `Validator.EmptyIsMissing` | lib/ph_no_to_word/validator.rb:22 | an empty number is missing, whatever the digit list holds |
| `Validator.WrongLengthIsBadLength` | lib/ph_no_to_word/validator.rb:24-26 | a non-empty number of a length other than 10 gets the length error |
| `Validator.LengthCheckedBeforeDigits` | lib/ph_no_to_word/validator.rb:22-29 | a wrong-length number holding 0 reports the length error, not the digit error |
| `Validator.ValidateOwnChars` | lib/ph_no_to_word/validator.rb:27-29 | with its own characters as digit list, a number passes exactly when it has 10 characters and no 0 or 1; with 10 characters and a 0 or 1 it is a digit error |
| `Validator.ValidatorRejects` | spec/validator_spec.rb:4-19 | the rejected test numbers: "" is missing; "228266868" and "2" have the wrong length; "2282668681" and "2282068687" hold a forbidden digit |
| `Validator.ValidatorAccepts` | lib/ph_no_to_word.rb:12-18 | the example number "2282668687" of the converter is accepted |
| `Validator.AsWrittenAcceptsNineDigits` | lib/ph_no_to_word/constants.rb:22 | with `PH_LENGTH` 9 the nine-digit test number passes and the ten-digit example number is rejected |
| `Helpers.KeyFromWordNo` | lib/ph_no_to_word/helpers.rb:100-109 | the key is `:first`, `:second`, `:third` exactly when `first_wd?`, `second_wd?`, `third_wd?` hold, and nil outside 0 to 2 |
| `Helpers.IsFirstWord` | lib/ph_no_to_word/helpers.rb:15-17 | `first_wd?`: word number 0; related to the slot `:first` by `KeyFromWordNo` |
| `Helpers.IsSecondWord` | lib/ph_no_to_word/helpers.rb:19-21 | `second_wd?`: word number 1; related to `:second` by `KeyFromWordNo` |
| `Helpers.IsThirdWord` | lib/ph_no_to_word/helpers.rb:23-25 | `third_wd?`: word number 2; related to `:third` by `KeyFromWordNo` |
| `Helpers.IsFirstOrSecondWord` | lib/ph_no_to_word/helpers.rb:27-29 | `first_or_sec_wd?`; described by `FirstOrSecondSlots` |
| `Helpers.InsideLastPos` | lib/ph_no_to_word/helpers.rb:39-41 | `inside_last_pos?`: the position is before the array's end; used in `SearchAgainForSecondThirdWdIff` |
| `Helpers.TenChrWdFilename` | lib/ph_no_to_word/helpers.rb:44-46 | `ten_chr_wd_filename`: first three characters plus the extension; `FilenameFromLevel` agrees with it at level 3 |
| `Helpers.FirstOrSecondSlots` | lib/ph_no_to_word/helpers.rb:27-29 | `first_or_sec_wd?` holds exactly for the numbers keyed `:first` or `:second` |
| `Helpers.Cmp` | lib/ph_no_to_word/helpers.rb:32-36 | false if either side is nil, otherwise true exactly when the stripped strings agree up to ASCII case |
| `Helpers.CmpSymmetric` | lib/ph_no_to_word/helpers.rb:32-36 | `cmp` is symmetric |
| `Helpers.CmpEquivalence` | lib/ph_no_to_word/helpers.rb:32-36 | `cmp` is reflexive and transitive on strings |
| `Helpers.CmpIgnoresSurroundingSpace` | lib/ph_no_to_word/helpers.rb:32-36 | surrounding whitespace (a dictionary line's newline) never changes the outcome |
| `Helpers.ValidWordIff` | lib/ph_no_to_word/helpers.rb:50-52 | `valid_word?` holds exactly for three letters or more at a position other than 7 and 8, the positions leaving fewer than three letters |
| `Helpers.ValidWord` | lib/ph_no_to_word/helpers.rb:50-52 | `valid_word?`; described by `ValidWordIff` |
| `Helpers.RoomForAnotherWord` | lib/ph_no_to_word/helpers.rb:55-57 | `can_accomdte_another_wd?` holds exactly when a three-letter word still fits in 10 |
| `Helpers.CanAccomdteAnotherWd` | lib/ph_no_to_word/helpers.rb:55-57 | `can_accomdte_another_wd?`; described by `RoomForAnotherWord` |
| `Helpers.SearchAgainForFirstWdIff` | lib/ph_no_to_word/helpers.rb:62-64 | holds exactly for word 0 up to position 6 |
| `Helpers.SearchAgainForFirstWd` | lib/ph_no_to_word/helpers.rb:62-64 | `search_again_for_first_wd?`; described by `SearchAgainForFirstWdIff` |
| `Helpers.SearchAgainForSecondThirdWdIff` | lib/ph_no_to_word/helpers.rb:67-69 | holds exactly for word 1 at any position or word 2 inside the array; never for another word |
| `Helpers.SearchAgainForSecondThirdWd` | lib/ph_no_to_word/helpers.rb:67-69 | `search_again_for_second_thrid_wd?` with Ruby's precedence; described by `SearchAgainForSecondThirdWdIff` |
| `Helpers.SecondWordUnbounded` | lib/ph_no_to_word/helpers.rb:67-69 | by Ruby precedence the second word passes at the array's end, where a bound on both words would fail |
| `Helpers.NextWordConditions` | lib/ph_no_to_word/helpers.rb:74-82 | `stop_mth_with_nxt_wrd?` is false exactly for `:second` with at most 7 letters; `search_for_nxt_wd?` holds exactly when not scanned and at least 3 long |
| `Helpers.SearchForNxtWd` | lib/ph_no_to_word/helpers.rb:74-76 | `search_for_nxt_wd?`; described by `NextWordConditions` |
| `Helpers.StopMthWithNxtWrd` | lib/ph_no_to_word/helpers.rb:80-82 | `stop_mth_with_nxt_wrd?`; described by `NextWordConditions` |
| `Helpers.FilenameFromLevel` | lib/ph_no_to_word/helpers.rb:114-127 | level 1 with nil file name exactly for 3 letters; level 3 exactly for the phone length, named as `ten_chr_wd_filename`; otherwise level 2; the name is a prefix of 3, or of up to 4, characters plus the extension; nil exactly at level 1 |
| `Helpers.OrInit` | lib/ph_no_to_word/helpers.rb:86-88 | `x ||= init` keeps a set value and initialises a nil one |
| `Helpers.InitStores` | lib/ph_no_to_word/helpers.rb:85-90 | afterwards all three stores are set: a set store is kept, a nil result becomes the empty set, a nil slot table the three empty slot lists, and nil positions the empty list |
| `Helpers.InitStoresIdempotent` | lib/ph_no_to_word/helpers.rb:85-90 | initialising twice is initialising once |
| `Helpers.ResetThenInit` | lib/ph_no_to_word/helpers.rb:85-97 | after a reset, initialising gives an empty result set, empty lists for the three slots and no scanned positions |
| `Helpers.DataStores.constructor` | lib/ph_no_to_word/helpers.rb:93-97 | the instance variables start nil |
| `Helpers.DataStores.SetDataStores` | lib/ph_no_to_word/helpers.rb:85-90 | the new stores are the old ones with each nil store initialised |
| `Helpers.DataStores.ResetDataStores` | lib/ph_no_to_word/helpers.rb:93-97 | all three stores become nil |
| `Helpers.ResetThenSet` | lib/ph_no_to_word/helpers.rb:85-97 | whatever the stores held, reset then set leaves them empty |
| `SplitDictionary.WordFileFolderPath` | lib/ph_no_to_word/split_dictionary.rb:82-86 | a folder under the word-files path: the level-1 folder exactly for level 1, the level-2 folder for every other level |
| `SplitDictionary.FileFor` | lib/ph_no_to_word/split_dictionary.rb:63-67 | the word file `write_to_file` picks: the level-1 file for level 1, otherwise the level-2 file of the stripped, lower-cased name; paths by `Path`, see `PathInjective` |
| `SplitDictionary.NewFilePath` | lib/ph_no_to_word/split_dictionary.rb:63-67 | `new_file_path`; described by `SameLevelTwoFile` |
| `SplitDictionary.PathInjective` | lib/ph_no_to_word/split_dictionary.rb:63-67 | two word files share a path only if they are the same file |
| `SplitDictionary.LevelPathsDistinct` | lib/ph_no_to_word/split_dictionary.rb:63-67 | the level-1 file is never a level-2 file |
| `SplitDictionary.LevelTwoPathInjective` | lib/ph_no_to_word/split_dictionary.rb:66 | level-2 paths are equal exactly when their names are |
| `SplitDictionary.SameLevelTwoFile` | lib/ph_no_to_word/split_dictionary.rb:66 | two level-2 file names give one file exactly when they agree stripped and lower-cased |
| `SplitDictionary.Appended` | lib/ph_no_to_word/split_dictionary.rb:69-75 | appending creates the file if absent, adds the word at its end, and leaves every other file alone |
| `SplitDictionary.FileOf` | lib/ph_no_to_word/split_dictionary.rb:32-36 | the file a stripped word is written to; described by `ShortWordDropped`, `ThreeLetterFile` and `LongWordFile` |
| `SplitDictionary.AddWord` | lib/ph_no_to_word/split_dictionary.rb:32-36 | the `if`/`elsif` of the `each_line` block; described by `AddWordCases` |
| `SplitDictionary.AddLine` | lib/ph_no_to_word/split_dictionary.rb:30-36 | one pass of the `each_line` block; described by `AddLineOneFile` |
| `SplitDictionary.Bucketed` | lib/ph_no_to_word/split_dictionary.rb:29-37 | the whole `each_line` loop; described by `BucketedContents` and `BucketedKeys` |
| `SplitDictionary.AddLineOneFile` | lib/ph_no_to_word/split_dictionary.rb:29-37 | one line appends its stripped word to its own file only; a short word changes nothing |
| `SplitDictionary.AddWordCases` | lib/ph_no_to_word/split_dictionary.rb:32-36 | a word over three letters is appended to the level-2 file of its first four characters, a three-letter word to the level-1 file, and a shorter one changes nothing |
| `SplitDictionary.BucketedContents` | lib/ph_no_to_word/split_dictionary.rb:29-37 | after the loop every file holds its old lines followed by exactly the stripped words that belong to it, in input order |
| `SplitDictionary.BucketedKeys` | lib/ph_no_to_word/split_dictionary.rb:29-37 | after the loop a file exists exactly when it existed before or some stripped word belongs to it |
| `SplitDictionary.SelectedSound` | lib/ph_no_to_word/split_dictionary.rb:29-37 | every word in a file is a stripped input line that belongs to that file |
| `SplitDictionary.SelectedComplete` | lib/ph_no_to_word/split_dictionary.rb:29-37 | every input line of three letters or more, stripped, reaches its file |
| `SplitDictionary.WordInOneFile` | lib/ph_no_to_word/split_dictionary.rb:31-37 | no word lands in two files |
| `SplitDictionary.ShortWordDropped` | lib/ph_no_to_word/split_dictionary.rb:31-37 | a stripped word under three letters goes nowhere |
| `SplitDictionary.ThreeLetterFile` | lib/ph_no_to_word/split_dictionary.rb:34-35 | exactly the three-letter words go to the level-1 file, and the file's path is the one `write_to_file` builds |
| `SplitDictionary.LongWordFile` | lib/ph_no_to_word/split_dictionary.rb:32-33 | a longer word goes to the level-2 file of its first four characters, stripped and lower-cased, and is stored with its own case |
| `SplitDictionary.PhoneLengthWordAtLevelTwo` | lib/ph_no_to_word/split_dictionary.rb:32-33 | a ten-letter word goes to level 2, although lookup sends ten-letter candidates to level 3 |
| `SplitDictionary.LookupAgreesThreeLetter` | lib/ph_no_to_word/helpers.rb:114-118 | a three-letter candidate is looked up at level 1, where the split put three-letter words |
| `SplitDictionary.LookupAgreesLonger` | lib/ph_no_to_word/helpers.rb:122-124 | a lower-case candidate of 4 to 9 or more than 10 letters is looked up in the very level-2 file the split wrote it to |
| `SplitDictionary.SecondSplitDuplicates` | lib/ph_no_to_word/split_dictionary.rb:41-52 | with the old files kept, a second split leaves each file holding its words twice |
| `SplitDictionary.SecondSplitDiffers` | lib/ph_no_to_word/split_dictionary.rb:41-52 | that second split differs from the first for any dictionary with a word of three letters or more |
| `SplitDictionary.FreshSplitContents` | lib/ph_no_to_word/split_dictionary.rb:23-38 | split into cleared files, each file holds exactly its words in input order, and exists exactly when it has one |
| `SplitDictionary.WordFiles.constructor` | lib/ph_no_to_word/split_dictionary.rb:49 | new word-file folders are empty |
| `SplitDictionary.WordFiles.WriteToFile` | lib/ph_no_to_word/split_dictionary.rb:60-77 | appends the word to the one file for its name and level, creating it when absent |
| `SplitDictionary.WordFiles.RemoveAllFilesAsWritten` | lib/ph_no_to_word/split_dictionary.rb:41-52 | as written no file is removed |
| `SplitDictionary.WordFiles.RemoveAllFiles` | lib/ph_no_to_word/split_dictionary.rb:41-52 | as intended every word file is removed |
| `SplitDictionary.WordFiles.SplitLine` | lib/ph_no_to_word/split_dictionary.rb:30-36 | one line changes the files as `AddLine` says: its stripped word is appended to its file, if it has one |
| `SplitDictionary.WordFiles.SplitLines` | lib/ph_no_to_word/split_dictionary.rb:29-37 | the files become the old files with the dictionary lines bucketed in order |
| `SplitDictionary.WordFiles.SplitFiles` | lib/ph_no_to_word/split_dictionary.rb:23-38 | clears the files; fails with FileNotExists exactly when the given (or default) dictionary is missing; otherwise the files are the bucketed dictionary |
| `SplitDictionary.WordFiles.SplitFilesAsWritten` | lib/ph_no_to_word/split_dictionary.rb:23-38 | as written: the same outcome, with the words appended to the old files |
| `SplitDictionary.MissingDictionaryFails` | spec/split_dictionary_spec.rb:4-6 | splitting a missing path fails with FileNotExists |
| `SplitDictionary.SplitTwice` | lib/ph_no_to_word/split_dictionary.rb:23-38 | two splits of one dictionary leave the files of one split |

## Left out

- `lib/ph_no_to_word.rb` `convert`: it only prints the number. The word search, the combination of slot words and the results its tests expect are not part of this model.
- `convert` never calls `validate`, so the validator tests, which go through `convert`, do not reach the guard. `Validator.ValidatorRejects` states them of `validate` itself.
- The file system: `File.open`, `File.new`, `FileUtils`, `mkdir_p` and the `__dir__` prefix of every path. The readable files are a parameter of `SplitFiles`, and paths start at the gem's `/ph_no_to_word/word_files`.
- `lib/ph_no_to_word/error.rb` is modelled only as the names `RequiredArgumentMissingError`, `MalformattedArgumentError` and `FileNotExists`. The logger is entirely commented out and `spec/spec_helper.rb` is test configuration.
- Ruby's Unicode behaviour of `strip` and `downcase`: only ASCII is modelled.
- Raising is modelled as returning an outcome value. `validate` returns nil on success, which is `Ok`.
- `RubyString.ArrayAnd`: the order of the intersection is not stated, since only its emptiness is used.
- `Helpers.DataStores`: the element types of `@result` and `@scanned_pos` are not visible. They are modelled as strings and integers.

## Findings

| source | as written | input that shows it | evidently intended | confidence | as-written member | corrected member |
|---|---|---|---|---|---|---|
| lib/ph_no_to_word/constants.rb:22 | `PH_LENGTH = 9` | "228266868" (nine digits) passes `validate`, which `spec/validator_spec.rb:11` expects to fail with the length error; "2282668687" is rejected. The same constant picks level 3 in `filename_frm_lvl` (`helpers.rb:119`): a nine-letter candidate such as "abcdefghi" is looked up at level 3 in `abc.txt`, while `Helpers.FilenameFromLevel` and `SplitDictionary.LookupAgreesLonger` use the corrected 10 and give level 2 | 10, as the header comment `lib/ph_no_to_word.rb:3` says | high; not executed | `Validator.AsWrittenAcceptsNineDigits` | `Validator.ValidatorRejects` |
| lib/ph_no_to_word/split_dictionary.rb:46 | `File.file?` on a folder is false, so `remove_all_files` removes nothing | splitting the one-word dictionary "cat" twice leaves "cat" twice in the level-1 file | `File.directory?`, so that every split starts from empty folders | high; not executed | `SplitDictionary.SecondSplitDiffers` | `SplitDictionary.FreshSplitContents` |
