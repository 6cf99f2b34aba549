/**
 * The constant tables of the converter: the telephone keypad (the letter
 * assignment of ITU-T Recommendation E.161), the forbidden digits, the phone
 * number length, the error messages, the word-file locations, and the length
 * bounds the search helpers use.
 */
module Constants {

  /** Error messages, keyed as in the source. There is no `ph_length` entry. */
  const ERRORS: map<string, string> := map[
    "missing_ph" := "Please provide a phone number",
    "malformed_ph_no" := "Cannot contain 0 or 1 in the phone number"
  ]

  /** Keypad digit to its letters. */
  const NO_CHAR_MAP: map<char, seq<char>> := map[
    '2' := "abc",
    '3' := "def",
    '4' := "ghi",
    '5' := "jkl",
    '6' := "mno",
    '7' := "pqrs",
    '8' := "tuv",
    '9' := "wxyz"
  ]

  const FORBIDDEN_NOS: seq<string> := ["0", "1"]

  const MAX_SPLIT_DEPTH := 4

  /** The length of a phone number; see README, Findings, for the value 9. */
  const PH_LENGTH := 10
  const PH_LENGTH_AS_WRITTEN := 9

  const DEFAULT_WORD_FILES_PATH := "/ph_no_to_word/word_files"
  const DEFAULT_WORD_FILE_DIR := DEFAULT_WORD_FILES_PATH + "/level_1"
  const DEFAULT_WD_FILE_DIR_LVL_2 := DEFAULT_WORD_FILES_PATH + "/level_2"
  const DEFAULT_DICTIONARY_FILE_PATH := DEFAULT_WORD_FILES_PATH + "/dictionary_sample.txt"

  // Referenced by the helpers and the dictionary splitter but defined
  // outside the modelled files; the values are those the comments imply.
  const MIN_WD_LENGTH := 3
  const MAX_WD_LEN := 7
  const MAX_WD_LEN_INDEX := 6
  const FORBN_WD_LENS: set<int> := {7, 8}
  const FILE_EXT := ".txt"
  const THREE_CHAR_FILE := "three_char_words" + FILE_EXT

  /** The keypad is defined exactly for the digits 2 to 9. */
  lemma KeypadDomain()
        ensures forall d :: d in NO_CHAR_MAP <==> '2' <= d <= '9'
  {
  }

  /** 7 and 9 carry four letters, every other digit three. */
  lemma KeypadLetterCounts()
    ensures forall d :: d in NO_CHAR_MAP ==> |NO_CHAR_MAP[d]| == if d == '7' || d == '9' then 4 else 3
  {
  }

  /** Read in digit order, the keypad spells the alphabet a to z once. */
  lemma KeypadSpellsAlphabet()
    ensures NO_CHAR_MAP['2'] + NO_CHAR_MAP['3'] + NO_CHAR_MAP['4'] + NO_CHAR_MAP['5']
          + NO_CHAR_MAP['6'] + NO_CHAR_MAP['7'] + NO_CHAR_MAP['8'] + NO_CHAR_MAP['9']
         == "abcdefghijklmnopqrstuvwxyz"
  {
  }

  /** No letter belongs to two digits. */
  lemma KeypadDisjoint()
    ensures forall d, e, i, j :: d in NO_CHAR_MAP && e in NO_CHAR_MAP && d != e
                                 && 0 <= i < |NO_CHAR_MAP[d]| && 0 <= j < |NO_CHAR_MAP[e]|
                                 ==> NO_CHAR_MAP[d][i] != NO_CHAR_MAP[e][j]
  {
  }

  /** Every lower-case letter is on exactly one key. */
  lemma LetterOnOneKey(c: char)
    requires 'a' <= c <= 'z'
    ensures exists d :: d in NO_CHAR_MAP && c in NO_CHAR_MAP[d]
    ensures forall d, e :: d in NO_CHAR_MAP && e in NO_CHAR_MAP && c in NO_CHAR_MAP[d] && c in NO_CHAR_MAP[e] ==> d == e
  {
    KeypadDisjoint();
    var d := if c <= 'c' then '2' else if c <= 'f' then '3' else if c <= 'i' then '4'
             else if c <= 'l' then '5' else if c <= 'o' then '6' else if c <= 's' then '7'
             else if c <= 'v' then '8' else '9';
    assert c in NO_CHAR_MAP[d];
  }

  /** The forbidden digits are 0 and 1, and neither is a keypad key. */
  lemma ForbiddenNotOnKeypad()
    ensures forall s :: s in FORBIDDEN_NOS <==> s == "0" || s == "1"
    ensures forall s :: s in FORBIDDEN_NOS ==> |s| == 1 && s[0] !in NO_CHAR_MAP
  {
  }

  /** The length bounds are the phone length less room for a shortest word. */
  lemma LengthBoundsFromPhoneLength()
    ensures MAX_WD_LEN == PH_LENGTH - MIN_WD_LENGTH
    ensures MAX_WD_LEN_INDEX == MAX_WD_LEN - 1
    ensures forall p :: 0 <= p < PH_LENGTH ==>
              (p in FORBN_WD_LENS <==> 0 < PH_LENGTH - (p + 1) < MIN_WD_LENGTH)
  {
  }
}
