// utils/file_handler.py: FileHandler. The native dialogs are the strings they
// return ("" when cancelled); the disk is a map from existing paths to their
// `stat()` results; whether PIL could open, or a write succeeded, is an input.
// Paths follow POSIX `pathlib` rules.

module Files {
  import opened Python

  // ---------------------------------------------------------------------------
  // Paths

  /** `IndexOf(s, c)`: the first position of `c` in `s`, or -1 (`str.find`). */
  function IndexOf(s: string, c: char): (i: int)
    ensures -1 <= i < |s|
    ensures i >= 0 ==> s[i] == c && forall k :: 0 <= k < i ==> s[k] != c
    ensures i == -1 ==> forall k :: 0 <= k < |s| ==> s[k] != c
  {
    if s == [] then -1
    else if s[0] == c then 0
    else var j := IndexOf(s[1..], c); if j == -1 then -1 else j + 1
  }

  /** The last position of `c` in `s`, or -1 (`str.rfind`). */
  function LastIndexOf(s: string, c: char): (i: int)
    ensures -1 <= i < |s|
    ensures i >= 0 ==> s[i] == c
    ensures forall k :: i < k < |s| ==> s[k] != c
  {
    if s == [] then -1
    else if s[|s| - 1] == c then |s| - 1
    else LastIndexOf(s[..|s| - 1], c)
  }

  /** `s.split('/')`. */
  function Split(s: string): (parts: seq<string>)
    ensures |parts| >= 1
    ensures forall k :: 0 <= k < |parts| ==> '/' !in parts[k]
    decreases |s|
  {
    var i := IndexOf(s, '/');
    if i < 0 then [s] else [s[..i]] + Split(s[i + 1..])
  }

  /** `"/".join(parts)`. */
  function Join(parts: seq<string>): string {
    if parts == [] then ""
    else if |parts| == 1 then parts[0]
    else parts[0] + "/" + Join(parts[1..])
  }

  /** A component as `pathlib` keeps it: non-empty, not ".", without a separator. */
  predicate IsComponent(part: string) {
    part != "" && part != "." && '/' !in part
  }

  /** A `PurePosixPath`: whether it is rooted, and its components. */
  datatype Path = Path(absolute: bool, parts: seq<string>)
  {
    predicate Canonical() {
      forall k :: 0 <= k < |parts| ==> IsComponent(parts[k])
    }
  }

  function Components(raw: seq<string>): (parts: seq<string>)
    ensures forall k :: 0 <= k < |parts| ==> parts[k] != "" && parts[k] != "."
    ensures (forall k :: 0 <= k < |raw| ==> '/' !in raw[k]) ==> forall k :: 0 <= k < |parts| ==> IsComponent(parts[k])
  {
    if raw == [] then []
    else if raw[0] == "" || raw[0] == "." then Components(raw[1..])
    else [raw[0]] + Components(raw[1..])
  }

  /** The empty string, "." and "/" name a directory without components. */
  lemma SpecialNamesHaveNoComponents(s: string)
    ensures s == "" || s == "." || s == "/" ==> Components(Split(s)) == []
  {
    if s == "/" {
      assert IndexOf(s, '/') == 0 && s[1..] == "";
      assert Split(s) == ["", ""];
    } else if s == "" || s == "." {
      assert IndexOf(s, '/') == -1;
      assert Split(s) == [s];
    }
  }

  /** `Path(s)`: empty and "." components are dropped. */
  function Parse(s: string): (p: Path)
    ensures p.Canonical()
    ensures s == "" || s == "." ==> p == Path(false, [])
    ensures s == "/" ==> p == Path(true, [])
  {
    SpecialNamesHaveNoComponents(s);
    Path(|s| > 0 && s[0] == '/', Components(Split(s)))
  }

  /** `str(path)`. */
  function Str(p: Path): (r: string)
    ensures p.Canonical() ==> r != "" && (r[0] == '/' <==> p.absolute)
  {
    if p.absolute then "/" + Join(p.parts)
    else if p.parts == [] then "."
    else
      assert |p.parts| > 1 ==> Join(p.parts) == p.parts[0] + "/" + Join(p.parts[1..]);
      Join(p.parts)
  }

  lemma {:induction false} SplitJoin(parts: seq<string>)
    requires |parts| >= 1 && forall k :: 0 <= k < |parts| ==> '/' !in parts[k]
    ensures Split(Join(parts)) == parts
    decreases |parts|
  {
    if |parts| == 1 {
      assert IndexOf(parts[0], '/') == -1;
    } else {
      var s := Join(parts);
      var p0 := parts[0];
      assert s == p0 + "/" + Join(parts[1..]);
      assert s[|p0|] == '/';
      assert forall k :: 0 <= k < |p0| ==> s[k] == p0[k];
      assert IndexOf(s, '/') == |p0|;
      assert s[..|p0|] == p0;
      assert s[|p0| + 1..] == Join(parts[1..]);
      SplitJoin(parts[1..]);
    }
  }

  lemma {:induction false} ComponentsOfCanonical(parts: seq<string>)
    requires forall k :: 0 <= k < |parts| ==> IsComponent(parts[k])
    ensures Components(parts) == parts
  {
    if parts != [] {
      ComponentsOfCanonical(parts[1..]);
    }
  }

  /** A rooted path with components survives printing and parsing. */
  lemma ParseStrRooted(parts: seq<string>)
    requires parts != [] && forall k :: 0 <= k < |parts| ==> IsComponent(parts[k])
    ensures Parse(Str(Path(true, parts))) == Path(true, parts)
  {
    var s := Str(Path(true, parts));
    SplitJoin(parts);
    assert IndexOf(s, '/') == 0;
    assert s[1..] == Join(parts);
    assert Split(s) == [""] + parts;
    ComponentsOfCanonical(parts);
    assert Components([""] + parts) == Components(parts);
  }

  /** A relative path with components survives printing and parsing. */
  lemma ParseStrRelative(parts: seq<string>)
    requires parts != [] && forall k :: 0 <= k < |parts| ==> IsComponent(parts[k])
    ensures Parse(Str(Path(false, parts))) == Path(false, parts)
  {
    var s := Str(Path(false, parts));
    SplitJoin(parts);
    ComponentsOfCanonical(parts);
    assert s[0] == parts[0][0] by {
      if |parts| > 1 { assert s == parts[0] + "/" + Join(parts[1..]); }
    }
  }

  /** Printing a path and parsing it back gives the same path. */
  lemma ParseStr(p: Path)
    requires p.Canonical()
    ensures Parse(Str(p)) == p
  {
    if p.parts == [] {
      if p.absolute {
        assert Str(p) == "/";
        assert Split("/") == [""] + Split("");
      } else {
        assert Split(".") == ["."];
      }
    } else if p.absolute {
      ParseStrRooted(p.parts);
    } else {
      ParseStrRelative(p.parts);
    }
  }

  /** `path.name` */
  function Name(p: Path): (r: string)
    ensures p.Canonical() ==> (r == "" <==> p.parts == []) && '/' !in r && r != "."
  {
    if p.parts == [] then "" else p.parts[|p.parts| - 1]
  }

  /** `path.parent`: the root and "." are their own parents. */
  function Parent(p: Path): (q: Path)
    ensures q.absolute == p.absolute
    ensures p.parts != [] ==> p.parts == q.parts + [Name(p)]
    ensures p.parts == [] ==> q == p
  {
    if p.parts == [] then p else Path(p.absolute, p.parts[..|p.parts| - 1])
  }

  /** `path.suffix`: from the last dot of the name, when that dot neither starts
      nor ends the name. */
  function Suffix(p: Path): (s: string)
    ensures s != "" ==> s[0] == '.' && 2 <= |s| < |Name(p)| && s == Name(p)[|Name(p)| - |s|..]
    ensures s != "" ==> forall k :: 0 < k < |s| ==> s[k] != '.'
  {
    var name := Name(p);
    var i := LastIndexOf(name, '.');
    if 0 < i < |name| - 1 then name[i..] else ""
  }

  // ---------------------------------------------------------------------------
  // The extension allow-list

  const ImageFormats: set<string> := {".jpg", ".jpeg", ".png", ".bmp", ".tiff", ".webp"}

  /** `_is_valid_image_file` */
  function IsValidImageFile(p: Path): (b: bool)
    ensures b ==> 4 <= |Suffix(p)| < |Name(p)|
  {
    Lower(Suffix(p)) in ImageFormats
  }

  /** The allow-list read as "the name ends, ignoring case, with an allowed
      extension that is not the whole name". */
  predicate EndsWithImageExtension(name: string) {
    exists ext {:trigger EndsWithExtension(name, ext)} :: ext in ImageFormats && EndsWithExtension(name, ext)
  }

  /** `name` ends, ignoring case, in `ext`, and is longer than it. */
  predicate EndsWithExtension(name: string, ext: string) {
    |ext| < |name| && Lower(name[|name| - |ext|..]) == ext
  }

  lemma LowerKeepsDots(s: string)
    ensures forall k :: 0 <= k < |s| ==> (Lower(s)[k] == '.' <==> s[k] == '.')
  {
  }

  /** An allowed extension is a dot followed by letters only. */
  lemma ImageFormatShape(ext: string)
    requires ext in ImageFormats
    ensures |ext| >= 4 && ext[0] == '.' && forall k :: 0 < k < |ext| ==> ext[k] != '.'
  {
  }

  /** The last dot of a name is the one after which no dot follows. */
  lemma LastDotAt(name: string, i: nat)
    requires i < |name| && name[i] == '.'
    requires forall k :: i < k < |name| ==> name[k] != '.'
    ensures LastIndexOf(name, '.') == i
  {
  }

  /** An allowed lower-cased tail shorter than the name is an image extension. */
  lemma TailIsExtension(name: string, tail: string)
    requires Lower(tail) in ImageFormats && |tail| < |name| && tail == name[|name| - |tail|..]
    ensures EndsWithImageExtension(name)
  {
    var ext := Lower(tail);
    assert |ext| == |tail|;
    assert ext in ImageFormats && EndsWithExtension(name, ext);
  }

  lemma ValidImageHasExtension(p: Path)
    requires IsValidImageFile(p)
    ensures EndsWithImageExtension(Name(p))
  {
    var suffix := Suffix(p);
    ImageFormatShape(Lower(suffix));
    TailIsExtension(Name(p), suffix);
  }

  lemma ExtensionMakesValidImage(p: Path, ext: string)
    requires ext in ImageFormats && EndsWithExtension(Name(p), ext)
    ensures IsValidImageFile(p)
  {
    var name := Name(p);
    var n := |name|;
    var i := n - |ext|;
    var tail := name[i..];
    ImageFormatShape(ext);
    LowerKeepsDots(tail);
    assert name[i] == '.' by { assert tail[0] == name[i]; }
    forall k | i < k < n ensures name[k] != '.' {
      assert tail[k - i] == name[k];
    }
    LastDotAt(name, i);
    assert Suffix(p) == tail;
  }

  /** `_is_valid_image_file` holds exactly for the names that end, ignoring case,
      in an allowed extension preceded by at least one character. */
  lemma ValidImageIffExtension(p: Path)
    ensures IsValidImageFile(p) <==> EndsWithImageExtension(Name(p))
  {
    if IsValidImageFile(p) {
      ValidImageHasExtension(p);
    }
    if EndsWithImageExtension(Name(p)) {
      var ext :| ext in ImageFormats && EndsWithExtension(Name(p), ext);
      ExtensionMakesValidImage(p, ext);
    }
  }

  /** A name that is only an extension is not an image; the case of the
      extension does not matter. */
  lemma SuffixExamples()
    ensures !IsValidImageFile(Path(false, [".png"]))
    ensures IsValidImageFile(Path(true, ["home", "photo.JPG"]))
    ensures Suffix(Path(false, ["archive.tar.gz"])) == ".gz"
    ensures Suffix(Path(false, ["notes."])) == ""
  {
    LastDotAt(".png", 0);
    var name := "photo.JPG";
    LastDotAt(name, 5);
    assert name[5..] == ".JPG";
    assert Lower(".JPG") == ".jpg";
    var tar := "archive.tar.gz";
    LastDotAt(tar, 11);
    assert tar[11..] == ".gz";
    LastDotAt("notes.", 5);
  }

  // ---------------------------------------------------------------------------
  // The disk

  /** What `stat()` reports and the model uses: size in bytes and mtime. */
  datatype FileStat = FileStat(size: nat, mtime: real)

  /** The existing paths, files and directories, with their stat results. */
  type FileSystem = map<Path, FileStat>

  /** `_update_last_directory`: move to the file's folder when that folder exists. */
  function UpdatedDirectory(last: Path, p: Path, fs: FileSystem): (d: Path)
    ensures d == last || (d == Parent(p) && d in fs)
    ensures Parent(p) in fs ==> d == Parent(p)
  {
    if Parent(p) in fs then Parent(p) else last
  }

  function UnsupportedFormat(p: Path): Exception {
    Exception(ValueError, "Unsupported image format: " + Suffix(p))
  }

  datatype DialogStep = DialogStep(last: Path, out: Outcome<Option<Path>>)

  /** `browse_image_file` given what the open dialog returned. */
  function BrowseStep(last: Path, dialog: string, fs: FileSystem): (r: DialogStep)
    ensures dialog == "" ==> r == DialogStep(last, Ok(None))
    ensures dialog != "" && !IsValidImageFile(Parse(dialog)) ==>
              r == DialogStep(last, Err(UnsupportedFormat(Parse(dialog))))
    ensures r.out.Ok? && r.out.value.Some? ==>
              dialog != "" && r.out.value.value == Parse(dialog) && IsValidImageFile(Parse(dialog))
              && r.last == UpdatedDirectory(last, Parse(dialog), fs)
    ensures r.out.Err? ==> r.out.exc.kind == ValueError
  {
    if dialog == "" then DialogStep(last, Ok(None))
    else
      var p := Parse(dialog);
      if IsValidImageFile(p) then DialogStep(UpdatedDirectory(last, p, fs), Ok(Some(p)))
      else DialogStep(last, Err(UnsupportedFormat(p)))
  }

  /** `save_image` and `save_text`: `fs` is the disk after the attempted write and
      `written` whether the write raised; `what` is "image" or "text". */
  function SaveStep(last: Path, dialog: string, written: Outcome<()>, fs: FileSystem, what: string)
    : (r: DialogStep)
    ensures dialog == "" ==> r == DialogStep(last, Ok(None))
    ensures dialog != "" && written.Err? ==>
              r == DialogStep(last, Err(Exception(ValueError, "Failed to save " + what + ": " + written.exc.msg)))
    ensures dialog != "" && written.Ok? ==>
              r == DialogStep(UpdatedDirectory(last, Parse(dialog), fs), Ok(Some(Parse(dialog))))
  {
    if dialog == "" then DialogStep(last, Ok(None))
    else
      var p := Parse(dialog);
      match written
      case Err(e) => DialogStep(last, Err(Exception(ValueError, "Failed to save " + what + ": " + e.msg)))
      case Ok(_) => DialogStep(UpdatedDirectory(last, p, fs), Ok(Some(p)))
  }

  /** Every dialog-driven operation moves the last directory only when it returns a
      path, and then only to that path's existing folder. */
  lemma LastDirectoryFollowsSuccess(last: Path, dialog: string, written: Outcome<()>, fs: FileSystem,
                                    what: string)
    ensures var r := BrowseStep(last, dialog, fs);
            r.last != last ==> r.out.Ok? && r.out.value.Some? && r.last == Parent(r.out.value.value) && r.last in fs
    ensures var r := SaveStep(last, dialog, written, fs, what);
            r.last != last ==> r.out.Ok? && r.out.value.Some? && r.last == Parent(r.out.value.value) && r.last in fs
  {
  }

  /** `load_image`: existence is checked first, then the extension, then PIL's
      open (`pilOpen`). A PIL failure becomes ValueError. */
  function LoadImage(p: Path, fs: FileSystem, pilOpen: Outcome<Image>): (r: Outcome<Image>)
    ensures p !in fs ==> r == Err(Exception(FileNotFoundError, "Image file not found: " + Str(p)))
    ensures p in fs && !IsValidImageFile(p) ==> r == Err(UnsupportedFormat(p))
    ensures r.Ok? <==> p in fs && IsValidImageFile(p) && pilOpen.Ok?
    ensures r.Ok? ==> r == pilOpen
    ensures p in fs && IsValidImageFile(p) && pilOpen.Err? ==>
              r == Err(Exception(ValueError, "Failed to load image: " + pilOpen.exc.msg))
  {
    if p !in fs then Err(Exception(FileNotFoundError, "Image file not found: " + Str(p)))
    else if !IsValidImageFile(p) then Err(UnsupportedFormat(p))
    else match pilOpen
      case Ok(img) => Ok(img)
      case Err(e) => Err(Exception(ValueError, "Failed to load image: " + e.msg))
  }

  /** A missing file is reported as missing whatever its extension. */
  lemma MissingBeatsUnsupported(p: Path, fs: FileSystem, pilOpen: Outcome<Image>)
    requires p !in fs && !IsValidImageFile(p)
    ensures LoadImage(p, fs, pilOpen).exc.kind == FileNotFoundError
  {
  }

  const BytesPerMegabyte: nat := 1024 * 1024

  /** `size / (1024 * 1024)` in exact arithmetic. */
  function Megabytes(size: nat): (mb: real)
    ensures mb * BytesPerMegabyte as real == size as real
  {
    size as real / BytesPerMegabyte as real
  }

  /** `get_file_info`. `size_mb` is the exact quotient; see README. */
  function FileInfo(p: Path, fs: FileSystem): (info: map<string, Value>)
    ensures p !in fs ==> info == map["exists" := BoolValue(false)]
    ensures p in fs ==>
              && info.Keys == {"exists", "name", "size_bytes", "size_mb", "extension", "is_image", "modified"}
              && info["exists"] == BoolValue(true)
              && info["size_bytes"] == IntValue(fs[p].size)
              && info["modified"] == FloatValue(fs[p].mtime)
              && info["name"] == StrValue(Name(p))
              && info["extension"] == StrValue(Lower(Suffix(p)))
              && info["is_image"] == BoolValue(IsValidImageFile(p))
              && info["size_mb"] == FloatValue(Megabytes(fs[p].size))
  {
    if p !in fs then map["exists" := BoolValue(false)]
    else
      var st := fs[p];
      map["exists" := BoolValue(true), "name" := StrValue(Name(p)), "size_bytes" := IntValue(st.size),
          "size_mb" := FloatValue(Megabytes(st.size)),
          "extension" := StrValue(Lower(Suffix(p))), "is_image" := BoolValue(IsValidImageFile(p)),
          "modified" := FloatValue(st.mtime)]
  }

  /** For an existing path the info agrees with the extension test and the size. */
  lemma FileInfoAgreesWithChecks(p: Path, fs: FileSystem)
    requires p in fs
    ensures var info := FileInfo(p, fs);
            && info["is_image"] == BoolValue(EndsWithImageExtension(Name(p)))
            && info["is_image"] == BoolValue(info["extension"].s in ImageFormats)
            && info["size_mb"].f * BytesPerMegabyte as real == fs[p].size as real
            && info["name"] == StrValue(Name(p))
  {
    ValidImageIffExtension(p);
  }

  class FileHandler {
    var lastDirectory: Path

    /** `__init__`; `home` is `Path.home()`. */
    constructor (home: Path)
      ensures lastDirectory == home
    {
      lastDirectory := home;
    }

    method UpdateLastDirectory(p: Path, fs: FileSystem)
      modifies this
      ensures lastDirectory == UpdatedDirectory(old(lastDirectory), p, fs)
    {
      if Parent(p) in fs {
        lastDirectory := Parent(p);
      }
    }

    /** `browse_image_file`; `dialog` is what `askopenfilename` returned. */
    method BrowseImageFile(dialog: string, fs: FileSystem) returns (r: Outcome<Option<Path>>)
      modifies this
      ensures DialogStep(lastDirectory, r) == BrowseStep(old(lastDirectory), dialog, fs)
    {
      if dialog == "" {
        return Ok(None);
      }
      var p := Parse(dialog);
      if IsValidImageFile(p) {
        UpdateLastDirectory(p, fs);
        return Ok(Some(p));
      }
      return Err(UnsupportedFormat(p));
    }

    /** `save_image`; `written` is whether `image.save` raised, `fs` the disk after it. */
    method SaveImage(dialog: string, written: Outcome<()>, fs: FileSystem) returns (r: Outcome<Option<Path>>)
      modifies this
      ensures DialogStep(lastDirectory, r) == SaveStep(old(lastDirectory), dialog, written, fs, "image")
    {
      r := Save(dialog, written, fs, "image");
    }

    /** `save_text`; `written` is whether opening or writing the file raised. */
    method SaveText(dialog: string, written: Outcome<()>, fs: FileSystem) returns (r: Outcome<Option<Path>>)
      modifies this
      ensures DialogStep(lastDirectory, r) == SaveStep(old(lastDirectory), dialog, written, fs, "text")
    {
      r := Save(dialog, written, fs, "text");
    }

    method Save(dialog: string, written: Outcome<()>, fs: FileSystem, what: string)
      returns (r: Outcome<Option<Path>>)
      modifies this
      ensures DialogStep(lastDirectory, r) == SaveStep(old(lastDirectory), dialog, written, fs, what)
    {
      if dialog == "" {
        return Ok(None);
      }
      var p := Parse(dialog);
      if written.Err? {
        return Err(Exception(ValueError, "Failed to save " + what + ": " + written.exc.msg));
      }
      UpdateLastDirectory(p, fs);
      return Ok(Some(p));
    }
  }
}
