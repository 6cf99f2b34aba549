/**
 * The helpers of the word search: word-slot numbering, the case-insensitive
 * comparison, the pruning predicates, the choice of word file for a
 * candidate, and the three stores the search accumulates into.
 */
module Helpers {
  import opened Wrappers
  import opened RubyString
  import opened Constants

  /** The word slots `:first`, `:second` and `:third`. */
  datatype Slot = First | Second | Third

  predicate IsFirstWord(wordNo: int) { wordNo == 0 }
  predicate IsSecondWord(wordNo: int) { wordNo == 1 }
  predicate IsThirdWord(wordNo: int) { wordNo == 2 }
  predicate IsFirstOrSecondWord(wordNo: int) { IsFirstWord(wordNo) || IsSecondWord(wordNo) }

  /** `key_frm_word_no`: the slot of word number 0, 1 or 2, nil for any other. */
  function KeyFromWordNo(wordNo: int): (k: Option<Slot>)
    ensures k == Some(First) <==> IsFirstWord(wordNo)
    ensures k == Some(Second) <==> IsSecondWord(wordNo)
    ensures k == Some(Third) <==> IsThirdWord(wordNo)
    ensures k.None? <==> !(0 <= wordNo <= 2)
  {
    match wordNo
    case 0 => Some(First)
    case 1 => Some(Second)
    case 2 => Some(Third)
    case _ => None
  }

  /** `first_or_sec_wd?` holds exactly for the word numbers of the first two slots. */
  lemma FirstOrSecondSlots(wordNo: int)
    ensures IsFirstOrSecondWord(wordNo) <==> KeyFromWordNo(wordNo) == Some(First) || KeyFromWordNo(wordNo) == Some(Second)
  {
  }

  /**
   * `cmp`: false when either side is nil; otherwise the two strings, stripped,
   * are equal up to ASCII case.
   */
  function Cmp(line: Option<string>, str: Option<string>): (r: bool)
    ensures r <==> line.Some? && str.Some? && Downcase(Strip(line.value)) == Downcase(Strip(str.value))
  {
    if line.None? || str.None? then false
    else
      CaseCmpZeroIff(Strip(line.value), Strip(str.value));
      CaseCmp(Strip(line.value), Strip(str.value)) == 0
  }

  lemma CmpSymmetric(a: Option<string>, b: Option<string>)
    ensures Cmp(a, b) == Cmp(b, a)
  {
  }

  /** A string matches itself, and matching is transitive. */
  lemma CmpEquivalence(a: string, b: string, c: string)
    ensures Cmp(Some(a), Some(a))
    ensures Cmp(Some(a), Some(b)) && Cmp(Some(b), Some(c)) ==> Cmp(Some(a), Some(c))
  {
  }

  /** Surrounding whitespace never changes the outcome of `cmp`. */
  lemma CmpIgnoresSurroundingSpace(a: string, b: string)
    ensures Cmp(Some(Strip(a)), Some(b)) == Cmp(Some(a), Some(b))
    ensures Cmp(Some(" " + a + "\n"), Some(b)) == Cmp(Some(a), Some(b))
  {
    StripIdempotent(a);
    assert Strip(" " + a + "\n") == Strip(a) by {
      StripPadded(a);
    }
  }

  /** `inside_last_pos?`. */
  predicate InsideLastPos<T>(ary: seq<T>, pos: int) { pos < |ary| }

  /** `ten_chr_wd_filename`: the first three characters and the file extension. */
  function TenChrWdFilename(word: string): string {
    Take(word, 3) + FILE_EXT
  }

  /** `valid_word?`. */
  predicate ValidWord(word: string, pos: int) {
    |word| >= MIN_WD_LENGTH && pos !in FORBN_WD_LENS
  }

  /**
   * A word is searched for when it has at least three letters and the position
   * is neither 7 nor 8, the two from which fewer than three letters remain.
   */
  lemma ValidWordIff(word: string, pos: int)
    ensures ValidWord(word, pos) <==> |word| >= 3 && pos != 7 && pos != 8
    ensures 0 <= pos < PH_LENGTH && |word| >= MIN_WD_LENGTH ==>
              (ValidWord(word, pos) <==> !(0 < PH_LENGTH - (pos + 1) < MIN_WD_LENGTH))
  {
  }

  /** `can_accomdte_another_wd?`. */
  predicate CanAccomdteAnotherWd(result: string) {
    |result| <= MAX_WD_LEN
  }

  /** There is room for another word exactly when a shortest word still fits. */
  lemma RoomForAnotherWord(result: string)
    ensures CanAccomdteAnotherWd(result) <==> |result| + MIN_WD_LENGTH <= PH_LENGTH
  {
  }

  /** `search_again_for_first_wd?`. */
  predicate SearchAgainForFirstWd(wordNo: int, pos: int) {
    IsFirstWord(wordNo) && pos <= MAX_WD_LEN_INDEX
  }

  lemma SearchAgainForFirstWdIff(wordNo: int, pos: int)
    ensures SearchAgainForFirstWd(wordNo, pos) <==> wordNo == 0 && pos <= 6
    ensures SearchAgainForFirstWd(wordNo, pos) ==> KeyFromWordNo(wordNo) == Some(First)
  {
  }

  /**
   * `search_again_for_second_thrid_wd?`. Ruby's `&&` binds tighter than `||`,
   * so the bound on the position applies to the third word only.
   */
  predicate SearchAgainForSecondThirdWd<T>(wordNo: int, pos: int, ary: seq<T>) {
    IsSecondWord(wordNo) || (IsThirdWord(wordNo) && InsideLastPos(ary, pos))
  }

  lemma SearchAgainForSecondThirdWdIff<T>(wordNo: int, pos: int, ary: seq<T>)
    ensures SearchAgainForSecondThirdWd(wordNo, pos, ary) <==> wordNo == 1 || (wordNo == 2 && pos < |ary|)
    ensures wordNo == 1 ==> SearchAgainForSecondThirdWd(wordNo, pos, ary)
    ensures wordNo != 1 && wordNo != 2 ==> !SearchAgainForSecondThirdWd(wordNo, pos, ary)
  {
  }

  /** The second word is searched past the end of the array; a bound on both words would stop it. */
  lemma SecondWordUnbounded(ary: seq<char>)
    ensures SearchAgainForSecondThirdWd(1, |ary|, ary)
    ensures !((IsSecondWord(1) || IsThirdWord(1)) && InsideLastPos(ary, |ary|))
  {
  }

  /** `search_for_nxt_wd?`. */
  predicate SearchForNxtWd(scanned: bool, wdAryLen: int) {
    !scanned && wdAryLen >= MIN_WD_LENGTH
  }

  /** `stop_mth_with_nxt_wrd?`; `pos` is a slot key, possibly nil. */
  predicate StopMthWithNxtWrd(pos: Option<Slot>, wds: string) {
    pos != Some(Second) || |wds| > MAX_WD_LEN
  }

  /**
   * The search goes on to the next word exactly for the second slot with room
   * for another word; it looks for a next word only when not scanned yet and
   * at least three letters long.
   */
  lemma NextWordConditions(pos: Option<Slot>, wds: string, scanned: bool, wdAryLen: int)
    ensures !StopMthWithNxtWrd(pos, wds) <==> pos == Some(Second) && |wds| <= MAX_WD_LEN
    ensures !StopMthWithNxtWrd(pos, wds) <==> pos == Some(Second) && CanAccomdteAnotherWd(wds)
    ensures SearchForNxtWd(scanned, wdAryLen) <==> !scanned && wdAryLen >= 3
  {
  }

  /**
   * `filename_frm_lvl`: a three-letter candidate is looked up in the single
   * level-1 file, a phone-length one in the level-3 file named by its first
   * three characters, and any other in the level-2 file named by its first
   * four characters (or fewer, for a shorter string).
   */
  function FilenameFromLevel(str: string): (r: (int, Option<string>))
    ensures 1 <= r.0 <= 3
    ensures r.1.None? <==> r.0 == 1
    ensures r.0 == 1 <==> |str| == MIN_WD_LENGTH
    ensures r.0 == 3 <==> |str| == PH_LENGTH
    ensures r.0 == 3 ==> r.1 == Some(TenChrWdFilename(str))
    ensures r.1.Some? ==> exists n :: n <= str && r.1.value == n + FILE_EXT
                                   && |n| == (if r.0 == 3 then 3 else if |str| < 4 then |str| else 4)
  {
    if |str| == MIN_WD_LENGTH then (1, None)
    else if |str| == PH_LENGTH then (3, Some(str[..3] + FILE_EXT))
    else (2, Some(Take(str, 4) + FILE_EXT))
  }

  /** The accumulators of one conversion; nil is `None`. */
  datatype Stores = Stores(result: Option<set<string>>,
                           matchingWdHash: Option<map<Slot, seq<string>>>,
                           scannedPos: Option<seq<int>>)

  const EMPTY_MATCHES: map<Slot, seq<string>> := map[First := [], Second := [], Third := []]

  const NIL_STORES := Stores(None, None, None)

  /** Ruby's `x ||= init`. */
  function OrInit<T>(x: Option<T>, init: T): (r: Option<T>)
    ensures x.Some? ==> r == x
    ensures x.None? ==> r == Some(init)
  {
    if x.Some? then x else Some(init)
  }

  /** What `set_data_stores` leaves: each nil store initialised, the others kept. */
  function InitStores(s: Stores): (r: Stores)
    ensures r.result.Some? && r.matchingWdHash.Some? && r.scannedPos.Some?
    ensures s.result.Some? ==> r.result == s.result
    ensures s.matchingWdHash.Some? ==> r.matchingWdHash == s.matchingWdHash
    ensures s.scannedPos.Some? ==> r.scannedPos == s.scannedPos
    ensures s.result.None? ==> r.result == Some({})
    ensures s.matchingWdHash.None? ==> r.matchingWdHash == Some(EMPTY_MATCHES)
    ensures s.scannedPos.None? ==> r.scannedPos == Some([])
  {
    Stores(OrInit(s.result, {}), OrInit(s.matchingWdHash, EMPTY_MATCHES), OrInit(s.scannedPos, []))
  }

  /** Initialising an initialised set of stores changes nothing. */
  lemma InitStoresIdempotent(s: Stores)
    ensures InitStores(InitStores(s)) == InitStores(s)
  {
  }

  /** After a reset, initialising gives empty results, slot lists and positions. */
  lemma ResetThenInit()
    ensures InitStores(NIL_STORES) == Stores(Some({}), Some(EMPTY_MATCHES), Some([]))
    ensures forall k :: k in InitStores(NIL_STORES).matchingWdHash.value ==> InitStores(NIL_STORES).matchingWdHash.value[k] == []
    ensures InitStores(NIL_STORES).matchingWdHash.value.Keys == {First, Second, Third}
  {
  }

  /** The module's instance variables `@result`, `@matching_wd_hash`, `@scanned_pos`. */
  class DataStores {
    var result: Option<set<string>>
    var matchingWdHash: Option<map<Slot, seq<string>>>
    var scannedPos: Option<seq<int>>

    function State(): Stores
      reads this
    {
      Stores(result, matchingWdHash, scannedPos)
    }

    /** Instance variables start as nil. */
    constructor ()
      ensures State() == NIL_STORES
    {
      result, matchingWdHash, scannedPos := None, None, None;
    }

    /** `set_data_stores`. */
    method SetDataStores()
      modifies this
      ensures State() == InitStores(old(State()))
    {
      if result.None? {
        result := Some({});
      }
      if matchingWdHash.None? {
        matchingWdHash := Some(EMPTY_MATCHES);
      }
      if scannedPos.None? {
        scannedPos := Some([]);
      }
    }

    /** `reset_data_stores`. */
    method ResetDataStores()
      modifies this
      ensures State() == NIL_STORES
    {
      result := None;
      matchingWdHash := None;
      scannedPos := None;
    }
  }

  /** A reset followed by `set_data_stores` always starts the next conversion empty. */
  method ResetThenSet(d: DataStores)
    modifies d
    ensures d.State() == Stores(Some({}), Some(EMPTY_MATCHES), Some([]))
  {
    d.ResetDataStores();
    d.SetDataStores();
    ResetThenInit();
  }
}
