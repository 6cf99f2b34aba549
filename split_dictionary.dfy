/**
 * Splitting the dictionary into word files: every stripped word of three
 * letters goes to the single level-1 file, every longer one to the level-2
 * file named by its first four characters, lower-cased; shorter words are
 * dropped. The directories of word files are a map from word file (each
 * with its own path) to the lines of that file, in order.
 */
module SplitDictionary {
  import opened Wrappers
  import opened RubyString
  import opened Constants
  import Helpers

  datatype SplitOutcome = Split | FileNotExists

  /**
   * A word file: the single level-1 file of three-letter words, or the
   * level-2 file with a given (stripped, lower-cased) name.
   */
  datatype WordFile = ThreeCharFile | PrefixFile(name: string)

  /** The word files, each with its lines in order. */
  type Files = map<WordFile, seq<string>>

  /** `word_file_folder_path`: level 1 has its own folder, every other level shares level 2's. */
  function WordFileFolderPath(level: int): (p: string)
    ensures DEFAULT_WORD_FILES_PATH <= p
    ensures p == DEFAULT_WORD_FILE_DIR <==> level == 1
    ensures level != 1 ==> p == DEFAULT_WD_FILE_DIR_LVL_2
  {
    assert DEFAULT_WORD_FILE_DIR[|DEFAULT_WORD_FILE_DIR| - 1] != DEFAULT_WD_FILE_DIR_LVL_2[|DEFAULT_WORD_FILE_DIR| - 1];
    if level == 1 then DEFAULT_WORD_FILE_DIR else DEFAULT_WD_FILE_DIR_LVL_2
  }

  /** The file `write_to_file` writes to for a file name and a level. */
  function FileFor(filename: string, level: int): WordFile {
    if level == 1 then ThreeCharFile else PrefixFile(Downcase(Strip(filename)))
  }

  /** The path of a word file. */
  function Path(f: WordFile): string {
    match f
    case ThreeCharFile => WordFileFolderPath(1) + "/" + THREE_CHAR_FILE
    case PrefixFile(name) => WordFileFolderPath(2) + "/" + name + FILE_EXT
  }

  /** The path `write_to_file` writes to. */
  function NewFilePath(filename: string, level: int): string {
    Path(FileFor(filename, level))
  }

  /** Distinct word files have distinct paths, so a path names one file. */
  lemma PathInjective(f1: WordFile, f2: WordFile)
    ensures Path(f1) == Path(f2) <==> f1 == f2
  {
    if f1.ThreeCharFile? && f2.PrefixFile? {
      LevelPathsDistinct(f2.name);
    } else if f1.PrefixFile? && f2.ThreeCharFile? {
      LevelPathsDistinct(f1.name);
    } else if f1.PrefixFile? && f2.PrefixFile? {
      LevelTwoPathInjective(f1.name, f2.name);
    }
  }

  lemma LevelPathsDistinct(name: string)
    ensures Path(ThreeCharFile) != Path(PrefixFile(name))
  {
    var k := |DEFAULT_WORD_FILE_DIR| - 1;
    assert Path(ThreeCharFile)[k] == '1';
    assert Path(PrefixFile(name))[k] == '2';
  }

  lemma LevelTwoPathInjective(n1: string, n2: string)
    ensures Path(PrefixFile(n1)) == Path(PrefixFile(n2)) <==> n1 == n2
  {
    var pre := DEFAULT_WD_FILE_DIR_LVL_2 + "/";
    assert Path(PrefixFile(n1)) == pre + n1 + FILE_EXT;
    assert Path(PrefixFile(n2)) == pre + n2 + FILE_EXT;
    if pre + n1 + FILE_EXT == pre + n2 + FILE_EXT {
      assert n1 == (pre + n1 + FILE_EXT)[|pre|..|pre| + |n1|];
    }
  }

  /** Two level-2 file names share a file exactly when they agree once stripped and lower-cased. */
  lemma SameLevelTwoFile(f1: string, f2: string, l1: int, l2: int)
    requires l1 != 1 && l2 != 1
    ensures NewFilePath(f1, l1) == NewFilePath(f2, l2) <==> Downcase(Strip(f1)) == Downcase(Strip(f2))
  {
    PathInjective(FileFor(f1, l1), FileFor(f2, l2));
  }

  /** The lines of file `f`, none when it does not exist. */
  function Lines(files: Files, f: WordFile): seq<string> {
    if f in files then files[f] else []
  }

  /** `puts` to a file opened for appending, or to a new file. */
  function Appended(files: Files, f: WordFile, word: string): (r: Files)
    ensures r.Keys == files.Keys + {f}
    ensures Lines(r, f) == Lines(files, f) + [word]
    ensures forall g :: g != f ==> Lines(r, g) == Lines(files, g)
  {
    files[f := Lines(files, f) + [word]]
  }

  /** The file `split_files` writes a stripped word to; none for a word under three letters. */
  function FileOf(word: string): Option<WordFile> {
    if |word| > MIN_WD_LENGTH then Some(FileFor(word[..4], 2))
    else if |word| == MIN_WD_LENGTH then Some(FileFor(word, 1))
    else None
  }

  /** The effect of one stripped dictionary word. */
  function AddWord(files: Files, word: string): Files {
    match FileOf(word)
    case None => files
    case Some(p) => Appended(files, p, word)
  }

  /** The effect of one dictionary line. */
  function AddLine(files: Files, line: string): Files {
    AddWord(files, Strip(line))
  }

  /** The word files after the lines are processed in order. */
  function Bucketed(files: Files, lines: seq<string>): Files
    decreases |lines|
  {
    if lines == [] then files
    else AddLine(Bucketed(files, lines[..|lines| - 1]), lines[|lines| - 1])
  }

  /** What one dictionary line adds to file `p`: its stripped word, or nothing. */
  function Contribution(line: string, p: WordFile): seq<string> {
    if FileOf(Strip(line)) == Some(p) then [Strip(line)] else []
  }

  /** The stripped lines that belong to file `p`, in input order. */
  function Selected(lines: seq<string>, p: WordFile): seq<string>
    decreases |lines|
  {
    if lines == [] then []
    else Selected(lines[..|lines| - 1], p) + Contribution(lines[|lines| - 1], p)
  }

  /**
   * One line changes at most one file: the stripped word is appended to
   * the file it belongs to, and a word under three letters changes nothing.
   */
  lemma AddLineOneFile(files: Files, line: string, q: WordFile)
    ensures FileOf(Strip(line)).None? ==> AddLine(files, line) == files
    ensures Lines(AddLine(files, line), q) == Lines(files, q) + Contribution(line, q)
    ensures q in AddLine(files, line) <==> q in files || Contribution(line, q) != []
  {
  }

  /** The branches of the `each_line` block, as `AddWord` sees them. */
  lemma AddWordCases(files: Files, word: string)
    ensures |word| > MIN_WD_LENGTH ==> AddWord(files, word) == Appended(files, FileFor(word[..4], 2), word)
    ensures |word| == MIN_WD_LENGTH ==> AddWord(files, word) == Appended(files, FileFor(word, 1), word)
    ensures |word| < MIN_WD_LENGTH ==> AddWord(files, word) == files
  {
    if |word| > MIN_WD_LENGTH {
      assert FileOf(word) == Some(FileFor(word[..4], 2));
    } else if |word| == MIN_WD_LENGTH {
      assert FileOf(word) == Some(ThreeCharFile);
    } else {
      assert FileOf(word) == None;
    }
  }

  /**
   * After the lines are processed, every file holds what it held before
   * followed by exactly the stripped words that belong to it, in input order.
   */
  lemma {:induction false} BucketedContents(files: Files, lines: seq<string>, p: WordFile)
    ensures Lines(Bucketed(files, lines), p) == Lines(files, p) + Selected(lines, p)
    decreases |lines|
  {
    if lines != [] {
      var init, last := lines[..|lines| - 1], lines[|lines| - 1];
      var b, c := Bucketed(files, init), Contribution(last, p);
      assert Lines(Bucketed(files, lines), p) == Lines(b, p) + c by {
        assert Bucketed(files, lines) == AddLine(b, last);
        AddLineOneFile(b, last, p);
      }
      assert Selected(lines, p) == Selected(init, p) + c;
      BucketedContents(files, init, p);
      ConcatAssoc(Lines(files, p), Selected(init, p), c);
    }
  }

  /** After the lines are processed, a file exists exactly when it did before or some word belongs to it. */
  lemma {:induction false} BucketedKeys(files: Files, lines: seq<string>, p: WordFile)
    ensures p in Bucketed(files, lines) <==> p in files || Selected(lines, p) != []
    decreases |lines|
  {
    if lines != [] {
      var init, last := lines[..|lines| - 1], lines[|lines| - 1];
      var c := Contribution(last, p);
      assert Bucketed(files, lines) == AddLine(Bucketed(files, init), last);
      assert Selected(lines, p) == Selected(init, p) + c;
      BucketedKeys(files, init, p);
      AddLineOneFile(Bucketed(files, init), last, p);
      assert |Selected(init, p) + c| == |Selected(init, p)| + |c|;
    }
  }

  /** What a file receives are stripped input lines that belong to it. */
  lemma {:induction false} SelectedSound(lines: seq<string>, p: WordFile, x: string)
    requires x in Selected(lines, p)
    ensures FileOf(x) == Some(p)
    ensures exists i :: 0 <= i < |lines| && Strip(lines[i]) == x
    decreases |lines|
  {
    var init, last := lines[..|lines| - 1], lines[|lines| - 1];
    assert Selected(lines, p) == Selected(init, p) + Contribution(last, p);
    if x in Selected(init, p) {
      SelectedSound(init, p, x);
      var i :| 0 <= i < |init| && Strip(init[i]) == x;
      assert lines[i] == init[i];
    } else {
      assert x in Contribution(last, p);
      assert x == Strip(lines[|lines| - 1]);
    }
  }

  /** Every input line of three letters or more, stripped, reaches its file. */
  lemma {:induction false} SelectedComplete(lines: seq<string>, i: int)
    requires 0 <= i < |lines| && FileOf(Strip(lines[i])).Some?
    ensures Strip(lines[i]) in Selected(lines, FileOf(Strip(lines[i])).value)
    decreases |lines|
  {
    if i < |lines| - 1 {
      var init := lines[..|lines| - 1];
      assert lines[i] == init[i];
      SelectedComplete(init, i);
    }
  }

  /** A word under three letters, stripped, is in no file. */
  lemma ShortWordDropped(word: string)
    requires |Strip(word)| < MIN_WD_LENGTH
    ensures FileOf(Strip(word)).None?
  {
  }

  /** Three-letter words, and only they, go to the single level-1 file. */
  lemma ThreeLetterFile(word: string)
    ensures FileOf(word) == Some(ThreeCharFile) <==> |word| == MIN_WD_LENGTH
    ensures FileOf(word).Some? ==> Path(FileOf(word).value) == NewFilePath(if |word| == MIN_WD_LENGTH then word else word[..4], if |word| == MIN_WD_LENGTH then 1 else 2)
  {
  }

  /**
   * A longer word goes to the level-2 file of its first four characters,
   * stripped and lower-cased; ten-letter words included. The word keeps its case.
   */
  lemma LongWordFile(line: string)
    requires |Strip(line)| > MIN_WD_LENGTH
    ensures FileOf(Strip(line)) == Some(PrefixFile(Downcase(Strip(Strip(line)[..4]))))
    ensures Path(FileOf(Strip(line)).value) == WordFileFolderPath(2) + "/" + Downcase(Strip(Strip(line)[..4])) + FILE_EXT
    ensures Lines(AddLine(map[], line), FileOf(Strip(line)).value) == [Strip(line)]
  {
  }

  /** A three-letter word is looked up in the level-1 file the split wrote it to. */
  lemma LookupAgreesThreeLetter(word: string)
    requires |word| == MIN_WD_LENGTH
    ensures Helpers.FilenameFromLevel(word).0 == 1
    ensures FileOf(word) == Some(ThreeCharFile)
  {
  }

  /**
   * A lower-case word of four letters or more that is not of phone length is
   * looked up in the level-2 file the split wrote it to.
   */
  lemma LookupAgreesLonger(word: string)
    requires IsLowerAscii(word) && |word| > MIN_WD_LENGTH && |word| != PH_LENGTH
    ensures Helpers.FilenameFromLevel(word).0 == 2
    ensures FileOf(word).Some?
    ensures Path(FileOf(word).value) == WordFileFolderPath(2) + "/" + Helpers.FilenameFromLevel(word).1.value
  {
    var n := word[..4];
    assert Downcase(Strip(n)) == n by {
      assert IsLowerAscii(n);
      StripNoSpace(n);
      DowncaseLower(n);
    }
    assert FileOf(word) == Some(PrefixFile(n));
    assert Helpers.FilenameFromLevel(word) == (2, Some(n + FILE_EXT));
    ConcatAssoc(WordFileFolderPath(2) + "/", n, FILE_EXT);
  }

  lemma ConcatAssoc<T>(a: seq<T>, b: seq<T>, c: seq<T>)
    ensures a + b + c == a + (b + c)
  {
  }

  /** The split writes no level-3 file: a phone-length word goes to level 2. */
  lemma PhoneLengthWordAtLevelTwo(word: string)
    requires |word| == PH_LENGTH
    ensures Helpers.FilenameFromLevel(word).0 == 3
    ensures FileOf(word) == Some(FileFor(word[..4], 2)) && FileOf(word).value.PrefixFile?
  {
  }

  /**
   * With the word files left in place, a second split of the same dictionary
   * appends every word again.
   */
  lemma SecondSplitDuplicates(lines: seq<string>, p: WordFile)
    ensures Lines(Bucketed(Bucketed(map[], lines), lines), p) == Selected(lines, p) + Selected(lines, p)
  {
    var once := Bucketed(map[], lines);
    BucketedContents(map[], lines, p);
    assert Lines(once, p) == Selected(lines, p);
    BucketedContents(once, lines, p);
  }

  /**
   * So a second split as written differs from the first for every dictionary
   * holding a word of three letters or more (say the one-word dictionary "cat").
   */
  lemma SecondSplitDiffers(lines: seq<string>, i: int)
    requires 0 <= i < |lines| && FileOf(Strip(lines[i])).Some?
    ensures Bucketed(Bucketed(map[], lines), lines) != Bucketed(map[], lines)
  {
    var p := FileOf(Strip(lines[i])).value;
    SelectedComplete(lines, i);
    SecondSplitDuplicates(lines, p);
    BucketedContents(map[], lines, p);
    assert |Lines(Bucketed(Bucketed(map[], lines), lines), p)| != |Lines(Bucketed(map[], lines), p)|;
  }

  /** Split into cleared word files, each file holds exactly its words, in input order. */
  lemma FreshSplitContents(lines: seq<string>, p: WordFile)
    ensures Lines(Bucketed(map[], lines), p) == Selected(lines, p)
    ensures p in Bucketed(map[], lines) <==> Selected(lines, p) != []
  {
    BucketedContents(map[], lines, p);
    BucketedKeys(map[], lines, p);
  }

  /** No word is selected for two files. */
  lemma WordInOneFile(lines: seq<string>, p1: WordFile, p2: WordFile, x: string)
    requires x in Selected(lines, p1) && x in Selected(lines, p2)
    ensures p1 == p2
  {
    SelectedSound(lines, p1, x);
    SelectedSound(lines, p2, x);
  }

  /** The word-file directories; a new one is empty. */
  class WordFiles {
    var files: Files

    constructor ()
      ensures files == map[]
    {
      files := map[];
    }

    /** `write_to_file`: appends the word to one file, creating it when absent. */
    method WriteToFile(filename: string, word: string, level: int := 2)
      modifies this
      ensures files == Appended(old(files), FileFor(filename, level), word)
    {
      var f := FileFor(filename, level);
      var existing := if f in files then files[f] else [];
      files := files[f := existing + [word]];
    }

    /** `remove_all_files` as written: `File.file?` is false for a directory, so nothing is removed. */
    method RemoveAllFilesAsWritten()
      modifies this
      ensures files == old(files)
    {
    }

    /** `remove_all_files` as intended: every word file is deleted. */
    method RemoveAllFiles()
      modifies this
      ensures files == map[]
    {
      files := map[];
    }

    /** The block `split_files` runs for one dictionary line. */
    method SplitLine(line: string)
      modifies this
      ensures files == AddLine(old(files), line)
    {
      var word := Strip(line);
      AddWordCases(files, word);
      if |word| > MIN_WD_LENGTH {
        WriteToFile(word[..4], word);
      } else if |word| == MIN_WD_LENGTH {
        WriteToFile(word, word, 1);
      }
    }

    /** The `each_line` loop of `split_files`. */
    method SplitLines(lines: seq<string>)
      modifies this
      ensures files == Bucketed(old(files), lines)
    {
      var i := 0;
      while i < |lines|
        invariant 0 <= i <= |lines|
        invariant files == Bucketed(old(files), lines[..i])
      {
        SplitLine(lines[i]);
        assert lines[..i + 1][..i] == lines[..i];
        i := i + 1;
      }
      assert lines[..|lines|] == lines;
    }

    /**
     * `split_files`: clears the word files, then fails when the dictionary
     * (by default the sample dictionary) does not exist, or splits its lines.
     * `sources` maps each readable file to its lines.
     */
    method SplitFiles(filePath: Option<string>, sources: map<string, seq<string>>) returns (r: SplitOutcome)
      modifies this
      ensures var path := if filePath.Some? then filePath.value else DEFAULT_DICTIONARY_FILE_PATH;
              && (r == FileNotExists <==> path !in sources)
              && files == if path in sources then Bucketed(map[], sources[path]) else map[]
    {
      RemoveAllFiles();
      var path := if filePath.Some? then filePath.value else DEFAULT_DICTIONARY_FILE_PATH;
      if path !in sources {
        return FileNotExists;
      }
      SplitLines(sources[path]);
      r := Split;
    }

    /** `split_files` as written: the old word files stay and the new words are appended to them. */
    method SplitFilesAsWritten(filePath: Option<string>, sources: map<string, seq<string>>) returns (r: SplitOutcome)
      modifies this
      ensures var path := if filePath.Some? then filePath.value else DEFAULT_DICTIONARY_FILE_PATH;
              && (r == FileNotExists <==> path !in sources)
              && files == if path in sources then Bucketed(old(files), sources[path]) else old(files)
    {
      RemoveAllFilesAsWritten();
      var path := if filePath.Some? then filePath.value else DEFAULT_DICTIONARY_FILE_PATH;
      if path !in sources {
        return FileNotExists;
      }
      SplitLines(sources[path]);
      r := Split;
    }
  }

  /** A missing dictionary fails the split, as the split's test expects. */
  method MissingDictionaryFails(w: WordFiles) returns (r: SplitOutcome)
    modifies w
    ensures r == FileNotExists
  {
    r := w.SplitFiles(Some("fake/path/test.txt"), map[]);
  }

  /** Splitting the same dictionary twice leaves the word files of one split. */
  method SplitTwice(w: WordFiles, sources: map<string, seq<string>>)
    requires DEFAULT_DICTIONARY_FILE_PATH in sources
    modifies w
    ensures w.files == Bucketed(map[], sources[DEFAULT_DICTIONARY_FILE_PATH])
  {
    var r1 := w.SplitFiles(None, sources);
    var r2 := w.SplitFiles(None, sources);
  }
}
