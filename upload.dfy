/**
 * The checks and the folder name of the upload route in api/server.ts: a
 * request without a file and a file whose lower-cased name does not end in
 * `.osz` are refused; otherwise the archive is extracted into a folder named
 * after the first word of the archive's base name.
 *
 * `toLowerCase` depends on Unicode tables and is a parameter.
 */
module Upload {
  import opened Wrappers
  import opened Strings
  import opened Paths

  /** The two 400 responses: "No file uploaded" and "Only .osz files are supported". */
  datatype UploadError = NoFile | NotOsz

  /** `path.basename(name, path.extname(name)).trim()`. */
  function ArchiveBaseName(name: string): string {
    Trim(BasenameWithout(name, Extname(name)))
  }

  /** The raw folder an upload named `originalName` (`None` when no file came) is extracted into. */
  function UploadFolder(originalName: Option<string>, lower: string -> string): Result<string, UploadError> {
    match originalName
    case None => Err(NoFile)
    case Some(name) =>
      var l := lower(name);
      if !EndsWith(l, ".osz") then Err(NotOsz)
      else Ok(FirstWord(ArchiveBaseName(l)))
  }

  /**
   * The two refusals happen exactly in their cases; an accepted upload's
   * folder is the first word of the base name: it holds no whitespace, starts
   * the base name, ends where the base name ends or at whitespace, and is
   * empty only when the base name is.
   */
  lemma UploadFolderSpec(originalName: Option<string>, lower: string -> string)
    ensures UploadFolder(originalName, lower) == Err(NoFile) <==> originalName.None?
    ensures UploadFolder(originalName, lower) == Err(NotOsz) <==>
      originalName.Some? && !EndsWith(lower(originalName.value), ".osz")
    ensures UploadFolder(originalName, lower).Ok? ==>
      var base := ArchiveBaseName(lower(originalName.value));
      var f := UploadFolder(originalName, lower).value;
      && StartsWith(base, f)
      && (forall k | 0 <= k < |f| :: !IsSpace(f[k]))
      && (f == base || IsSpace(base[|f|]))
      && (f == "" <==> base == "")
  {
    if originalName.Some? && EndsWith(lower(originalName.value), ".osz") {
      var base := ArchiveBaseName(lower(originalName.value));
      FirstWordSpec(base);
      TrimSpec(BasenameWithout(lower(originalName.value), Extname(lower(originalName.value))));
    }
  }

  /**
   * For an archive named `<stem>.osz` (after lower-casing), with no `.` or
   * `/` in the stem, the folder is the first word of the trimmed stem.
   */
  lemma UploadFolderOfPlainName(name: string, lower: string -> string, stem: string)
    requires lower(name) == stem + ".osz"
    requires stem != [] && '.' !in stem && '/' !in stem
    ensures UploadFolder(Some(name), lower) == Ok(FirstWord(Trim(stem)))
  {
    var l := stem + ".osz";
    assert IsExtension(".osz") by {
      assert ".osz"[1..] == "osz";
      assert "osz"[0] == 'o' && "osz"[1] == 's' && "osz"[2] == 'z';
    }
    ExtnameAfterStem(stem, ".osz");
    assert '/' !in l by {
      forall k | 0 <= k < |l| ensures l[k] != '/' {
        if k < |stem| { assert l[k] == stem[k]; } else { assert l[k] == ".osz"[k - |stem|]; }
      }
    }
    BasenameOfPlainName(l);
    assert l != ".osz";
    assert l[|l| - 4..] == ".osz";
    assert l[..|l| - 4] == stem;
  }
}
