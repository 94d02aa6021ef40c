/**
 * File-name handling of `FilePath`: punctuation in a free-text name becomes
 * `-`, and extra words and an extension are appended to the safe name.
 * The output directory (`os.getcwd`, `os.path.join`) is not part of this model.
 */
module FilePaths {

  /** The 32 ASCII punctuation characters of Python's `string.punctuation`. */
  const Punctuation: string := "!\"#$%&'()*+,-./:;<=>?@[\\]^_`{|}~"

  /** Punctuation by character code: the four ASCII ranges between letters and digits. */
  predicate IsPunctuation(c: char) {
    ('!' <= c <= '/') || (':' <= c <= '@') || ('[' <= c <= '`') || ('{' <= c <= '~')
  }

  /** The ranges above are exactly the characters of `Punctuation`. */
  lemma PunctuationRanges(c: char)
    ensures IsPunctuation(c) <==> c in Punctuation
  {
  }

  /** What one character of a name becomes in the safe name. */
  function SafeChar(c: char): char {
    if IsPunctuation(c) then '-' else c
  }

  /**
   * The safe form of a name, character by character: every punctuation
   * character is replaced by `-`, every other character stays where it is.
   */
  function SafeName(s: string): (r: string)
    ensures |r| == |s|
    ensures forall k :: 0 <= k < |s| ==> r[k] == SafeChar(s[k])
  {
    if s == [] then [] else [SafeChar(s[0])] + SafeName(s[1..])
  }

  /**
   * Python's `s.replace(target, replacement)` for one-character `target` and `replacement`:
   * every occurrence of `target` becomes `replacement`, nothing else moves.
   */
  function Replace(s: string, target: char, replacement: char): (r: string)
    ensures |r| == |s|
    ensures forall k :: 0 <= k < |s| ==> r[k] == (if s[k] == target then replacement else s[k])
  {
    if s == [] then []
    else [if s[0] == target then replacement else s[0]] + Replace(s[1..], target, replacement)
  }

  /**
   * `make_name_safe`: walks over the characters of the name as it was given
   * and, for each punctuation character met, replaces all its occurrences in
   * the name built so far by `-`.
   */
  method MakeNameSafe(fileName: string) returns (safe: string)
    ensures safe == SafeName(fileName)
  {
    safe := fileName;
    for i := 0 to |fileName|
      invariant |safe| == |fileName|
      invariant forall k :: 0 <= k < |fileName| ==>
        safe[k] == (if IsPunctuation(fileName[k]) && fileName[k] in fileName[..i] then '-' else fileName[k])
    {
      assert fileName[..i + 1] == fileName[..i] + [fileName[i]];
      var c := fileName[i];
      if IsPunctuation(c) {
        safe := Replace(safe, c, '-');
      }
    }
    assert fileName[..|fileName|] == fileName;
  }

  /** Sanitising twice changes nothing more than sanitising once. */
  lemma SafeNameIdempotent(s: string)
    ensures SafeName(SafeName(s)) == SafeName(s)
  {
  }

  /** The only punctuation character a safe name can contain is `-`. */
  lemma SafeNameOnlyDash(s: string, k: int)
    requires 0 <= k < |s|
    requires IsPunctuation(SafeName(s)[k])
    ensures SafeName(s)[k] == '-'
  {
  }

  /** A name is left as it is exactly when its only punctuation is `-`. */
  lemma SafeNameFixedPoints(s: string)
    ensures SafeName(s) == s <==> forall k :: 0 <= k < |s| && IsPunctuation(s[k]) ==> s[k] == '-'
  {
  }

  /** Names differing only in which punctuation they use share one safe name. */
  lemma SafeNamesCollide()
    ensures "Warm.th" != "Warm-th" && SafeName("Warm.th") == SafeName("Warm-th") == "Warm-th"
  {
  }

  /** The extra words of `add_extras`, each preceded by `-`, in the order given. */
  function Dashed(extras: seq<string>): string {
    if extras == [] then "" else "-" + extras[0] + Dashed(extras[1..])
  }

  /** The file name `add_extras` builds from a safe name, an extension and extra words. */
  function ExtendedName(safeName: string, fileExtension: string, extras: seq<string>): string {
    safeName + Dashed(extras) + "." + fileExtension
  }

  /** Appending one more word adds `-` and that word at the end. */
  lemma {:induction false} DashedAppend(extras: seq<string>, extra: string)
    ensures Dashed(extras + [extra]) == Dashed(extras) + "-" + extra
  {
    if extras != [] {
      assert (extras + [extra])[1..] == extras[1..] + [extra];
      DashedAppend(extras[1..], extra);
    }
  }

  /** The words of two lists joined one after the other. */
  lemma {:induction false} DashedConcat(front: seq<string>, back: seq<string>)
    ensures Dashed(front + back) == Dashed(front) + Dashed(back)
  {
    if front == [] {
      assert front + back == back;
    } else {
      assert (front + back)[1..] == front[1..] + back;
      DashedConcat(front[1..], back);
    }
  }

  /** The length of the appended words: one `-` per word plus the word itself. */
  function DashedLength(extras: seq<string>): nat {
    if extras == [] then 0 else 1 + |extras[0]| + DashedLength(extras[1..])
  }

  lemma {:induction false} DashedLengthIs(extras: seq<string>)
    ensures |Dashed(extras)| == DashedLength(extras)
  {
    if extras != [] {
      DashedLengthIs(extras[1..]);
    }
  }

  /**
   * The built name starts with the safe name, ends with `.` and the
   * extension, and holds exactly the dashed words in between.
   */
  lemma ExtendedNameParts(safeName: string, fileExtension: string, extras: seq<string>)
    ensures var n := ExtendedName(safeName, fileExtension, extras);
      && |n| == |safeName| + DashedLength(extras) + 1 + |fileExtension|
      && n[..|safeName|] == safeName
      && n[|safeName|..|safeName| + DashedLength(extras)] == Dashed(extras)
      && n[|n| - |fileExtension| - 1..] == "." + fileExtension
  {
    DashedLengthIs(extras);
  }

  /** The two names the script asks for: the chart and the CSV table of a property. */
  lemma ChartAndTableNames(safeName: string)
    ensures ExtendedName(safeName, "png", []) == safeName + ".png"
    ensures ExtendedName(safeName, "csv", ["csv", "file"]) == safeName + "-csv-file.csv"
    ensures ExtendedName(safeName, "png", []) != ExtendedName(safeName, "csv", ["csv", "file"])
  {
  }

  /** A helper for composing file names of one property under one output folder. */
  class FilePath {
    /** The property name with its punctuation replaced. */
    const safeFileName: string

    constructor (fileName: string)
      ensures safeFileName == SafeName(fileName)
    {
      var safe := MakeNameSafe(fileName);
      safeFileName := safe;
    }

    /**
     * `add_extras`: appends `-` and each extra word in turn to the safe
     * name, then `.` and the extension.
     */
    method AddExtras(fileExtension: string, extras: seq<string>) returns (extraFileName: string)
      ensures extraFileName == ExtendedName(safeFileName, fileExtension, extras)
    {
      extraFileName := safeFileName;
      for i := 0 to |extras|
        invariant extraFileName == safeFileName + Dashed(extras[..i])
      {
        assert extras[..i + 1] == extras[..i] + [extras[i]];
        DashedAppend(extras[..i], extras[i]);
        extraFileName := extraFileName + ("-" + extras[i]);
      }
      assert extras[..|extras|] == extras;
      extraFileName := extraFileName + ("." + fileExtension);
    }
  }

  /** A property name with two punctuation characters. */
  lemma SafeNameExample()
    ensures SafeName("Warm/cold?") == "Warm-cold-"
  {
  }

  /** A property's files as the script names them, for a name with punctuation. */
  method PropertyFileNames()
  {
    var path := new FilePath("Warm/cold?");
    SafeNameExample();
    var png := path.AddExtras("png", []);
    var csv := path.AddExtras("csv", ["csv", "file"]);
    ChartAndTableNames("Warm-cold-");
    assert png == "Warm-cold-.png";
    assert csv == "Warm-cold--csv-file.csv";
  }
}
