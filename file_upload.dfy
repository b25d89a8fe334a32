/**
 * The upload panel (client/src/components/upload/FileUpload.jsx): the chosen
 * file, whether a selection is active, the caption of the choose-file button,
 * whether the conversion dialog is open, and the helper that shortens long
 * file names for button captions.
 */
module FileUpload {
  import opened Wrappers

  /** A file the user picked; only its name matters to this component. */
  datatype AudioFile = AudioFile(name: string)

  const ChooseFileLabel: string := "Choose File"
  const ChangeFileLabel: string := "Change File"

  /** Length limit for the upload button caption (FileUpload.jsx:152). */
  const UploadCaptionLength: nat := 10

  // ---------------------------------------------------------------------------
  // String helpers with the semantics of the JavaScript built-ins used.
  // ---------------------------------------------------------------------------

  /** `pat` occurs in `s` starting at index `j`. */
  predicate OccursAt(s: string, pat: string, j: int) {
    0 <= j && j + |pat| <= |s| && s[j..j + |pat|] == pat
  }

  /** The first occurrence of `pat` in `s` at or after `from`. */
  function FindFrom(s: string, pat: string, from: nat): (r: Option<nat>)
    requires from <= |s|
    ensures r.Some? ==> from <= r.value && OccursAt(s, pat, r.value)
    ensures r.Some? ==> forall j :: from <= j < r.value ==> !OccursAt(s, pat, j)
    ensures r.None? ==> forall j :: from <= j ==> !OccursAt(s, pat, j)
    decreases |s| - from
  {
    if from + |pat| > |s| then None
    else if s[from..from + |pat|] == pat then Some(from)
    else if from == |s| then None
    else FindFrom(s, pat, from + 1)
  }

  /** `s.replace(pat, "")` with a string pattern: only the first occurrence goes. */
  function RemoveFirst(s: string, pat: string): (r: string)
    ensures (forall j :: !OccursAt(s, pat, j)) ==> r == s
    ensures forall i :: OccursAt(s, pat, i) && (forall j :: 0 <= j < i ==> !OccursAt(s, pat, j)) ==>
      r == s[..i] + s[i + |pat|..]
  {
    match FindFrom(s, pat, 0)
    case None => s
    case Some(i) => s[..i] + s[i + |pat|..]
  }

  /** The index of the last `c` in `s`. */
  function LastIndexOf(s: string, c: char): (r: Option<nat>)
    ensures r.None? <==> c !in s
    ensures r.Some? ==> r.value < |s| && s[r.value] == c && c !in s[r.value + 1..]
  {
    if |s| == 0 then None
    else if s[|s| - 1] == c then Some(|s| - 1)
    else
      var r := LastIndexOf(s[..|s| - 1], c);
      assert r.Some? ==> s[r.value + 1..] == s[..|s| - 1][r.value + 1..] + [s[|s| - 1]];
      r
  }

  // ---------------------------------------------------------------------------
  // getAbbreviatedFileName (FileUpload.jsx:93-100)
  // ---------------------------------------------------------------------------

  /** `fileName.split(".").pop()`: the text after the last '.', or the whole name. */
  function Extension(fileName: string): (ext: string)
    ensures '.' !in ext
    ensures '.' !in fileName ==> ext == fileName
    ensures '.' in fileName ==> |ext| < |fileName| && fileName == fileName[..|fileName| - |ext| - 1] + "." + ext
  {
    match LastIndexOf(fileName, '.')
    case None => fileName
    case Some(i) =>
      assert fileName == fileName[..i] + "." + fileName[i + 1..];
      fileName[i + 1..]
  }

  /** `fileName.replace("." + ext, "")`: the name without the FIRST occurrence of "." + ext. */
  function BaseName(fileName: string): string {
    RemoveFirst(fileName, "." + Extension(fileName))
  }

  /**
   * `getAbbreviatedFileName(fileName, length)`: the name itself when its base
   * fits in `length` characters, otherwise the first `length` characters of
   * the base, then "... .", then the extension.
   */
  function AbbreviatedFileName(fileName: string, length: nat): (r: string)
    ensures |BaseName(fileName)| <= length ==> r == fileName
    ensures |BaseName(fileName)| > length ==>
      |r| == length + 5 + |Extension(fileName)| &&
      r[..length] == BaseName(fileName)[..length] &&
      r[length..length + 5] == "... ." &&
      r[length + 5..] == Extension(fileName)
  {
    var ext := Extension(fileName);
    var base := BaseName(fileName);
    if |base| > length then base[..length] + "... ." + ext else fileName
  }

  /** A name with a dot loses exactly "." + extension when its base is formed. */
  lemma {:induction false} BaseNameLength(fileName: string)
    requires '.' in fileName
    ensures |BaseName(fileName)| == |fileName| - |Extension(fileName)| - 1
  {
    var ext := Extension(fileName);
    var pat := "." + ext;
    var n := |fileName| - |pat|;
    assert fileName[n..] == pat;
    assert OccursAt(fileName, pat, n);
    var r := FindFrom(fileName, pat, 0);
    assert r.Some?;
  }

  /**
   * The usual case: a stem without dots and an extension. The extension is
   * the text after the dot, the base is the stem, and the result is the name
   * itself or the truncated stem with the extension.
   */
  lemma {:induction false} AbbreviateStemAndExtension(stem: string, ext: string, length: nat)
    requires '.' !in stem && '.' !in ext
    ensures var name := stem + "." + ext;
      Extension(name) == ext &&
      BaseName(name) == stem &&
      AbbreviatedFileName(name, length) ==
        if |stem| <= length then name else stem[..length] + "... ." + ext
  {
    var name := stem + "." + ext;
    var pat := "." + ext;
    assert name[|stem|] == '.';
    var last := LastIndexOf(name, '.');
    assert last == Some(|stem|);
    assert name[|stem| + 1..] == ext;
    assert Extension(name) == ext;
    assert OccursAt(name, pat, |stem|);
    forall j | 0 <= j < |stem|
      ensures !OccursAt(name, pat, j)
    {
      assert name[j] == stem[j];
    }
    assert name[..|stem|] == stem && name[|stem| + |pat|..] == [];
  }

  /**
   * A name without any dot is its own extension and its own base, so a long
   * one is abbreviated to its prefix followed by "... ." and the WHOLE name.
   */
  lemma {:induction false} AbbreviateDotlessName(fileName: string, length: nat)
    requires '.' !in fileName && |fileName| > length
    ensures AbbreviatedFileName(fileName, length) == fileName[..length] + "... ." + fileName
  {
    var pat := "." + fileName;
    forall j ensures !OccursAt(fileName, pat, j) {
    }
    assert BaseName(fileName) == fileName;
  }

  // ---------------------------------------------------------------------------
  // The component's state (FileUpload.jsx:26-84)
  // ---------------------------------------------------------------------------

  class FileUploader {
    var file: Option<AudioFile>
    var fileSelected: bool
    var chooseFileLabel: string
    var showFileDetailsModal: bool

    /** The initial `useState` values (FileUpload.jsx:28-40). */
    constructor ()
      ensures file == None && !fileSelected && chooseFileLabel == ChooseFileLabel && !showFileDetailsModal
    {
      file := None;
      fileSelected := false;
      chooseFileLabel := ChooseFileLabel;
      showFileDetailsModal := false;
    }

    /** The upload button is rendered iff a file is stored and a selection is active. */
    predicate UploadButtonVisible()
      reads this
    {
      file.Some? && fileSelected
    }

    /**
     * The caption of the upload button: "Upload ", then the file name when its
     * base has at most 10 characters, else the first 10 characters of the
     * base, "... ." and the extension.
     */
    function UploadButtonCaption(): (caption: string)
      reads this
      requires UploadButtonVisible()
      ensures |caption| >= 7 && caption[..7] == "Upload "
      ensures |BaseName(file.value.name)| <= UploadCaptionLength ==> caption[7..] == file.value.name
      ensures |BaseName(file.value.name)| > UploadCaptionLength ==>
        caption[7..] == BaseName(file.value.name)[..UploadCaptionLength] + "... ." + Extension(file.value.name)
    {
      var name := file.value.name;
      var shortened := AbbreviatedFileName(name, UploadCaptionLength);
      var caption := "Upload " + shortened;
      assert caption[..7] == "Upload " && caption[7..] == shortened;
      if |BaseName(name)| > UploadCaptionLength then
        assert shortened == shortened[..UploadCaptionLength] + shortened[UploadCaptionLength..UploadCaptionLength + 5]
          + shortened[UploadCaptionLength + 5..];
        caption
      else
        caption
    }

    /**
     * `handleFileChange`: `files[0]` of the change event. A picked file is
     * stored and the caption becomes "Change File"; an undefined entry clears
     * the flag and caption but leaves the stored file as it was.
     */
    method HandleFileChange(files: seq<Option<AudioFile>>)
      modifies this
      ensures var input := if |files| == 0 then None else files[0];
        if input.None? then
          !fileSelected && chooseFileLabel == ChooseFileLabel && file == old(file)
        else
          fileSelected && chooseFileLabel == ChangeFileLabel && file == input
      ensures showFileDetailsModal == old(showFileDetailsModal)
      ensures UploadButtonVisible() <==> |files| > 0 && files[0].Some?
    {
      var input := if |files| == 0 then None else files[0];
      if input.None? {
        fileSelected := false;
        chooseFileLabel := ChooseFileLabel;
        return;
      } else {
        fileSelected := true;
        chooseFileLabel := ChangeFileLabel;
        file := input;
      }
    }

    /** `handleShow`, bound to the upload button: opens the conversion dialog. */
    method HandleShow()
      requires UploadButtonVisible()
      modifies this
      ensures showFileDetailsModal
      ensures file == old(file) && fileSelected == old(fileSelected) && chooseFileLabel == old(chooseFileLabel)
    {
      showFileDetailsModal := true;
    }

    /** `handleClose`: hides the dialog and forgets the selection. */
    method HandleClose()
      modifies this
      ensures !showFileDetailsModal && !fileSelected && chooseFileLabel == ChooseFileLabel && file == None
      ensures !UploadButtonVisible()
    {
      showFileDetailsModal := false;
      fileSelected := false;
      chooseFileLabel := ChooseFileLabel;
      file := None;
    }

    /** `setFile`, the state setter the conversion dialog receives as a prop. */
    method SetFile(f: Option<AudioFile>)
      modifies this
      ensures file == f
      ensures fileSelected == old(fileSelected) && chooseFileLabel == old(chooseFileLabel)
      ensures showFileDetailsModal == old(showFileDetailsModal)
    {
      file := f;
    }
  }
}
