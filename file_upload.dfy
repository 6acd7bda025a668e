/** The client-side gates of the upload service: the size limit, the MIME allow-list
    and the icon shown next to a selected file. */
module FileUpload {
  import opened Text
  import opened Files
  import opened Wrappers
  import Validations

  /** 10 MiB. */
  const MAX_FILE_SIZE: int := 10 * 1024 * 1024

  /** The nine accepted MIME types, compared exactly. */
  const ACCEPTED_FILE_TYPES: seq<string> := [
    "image/jpeg",
    "image/jpg",
    "image/png",
    "image/gif",
    "image/webp",
    "application/pdf",
    "text/plain",
    "application/msword",
    WORD_DOCX
  ]

  /** The Office Open XML word-processing type. It is written in three pieces so that
      the proofs can find the "word" inside it one short literal at a time. */
  const WORD_DOCX: string := "application/" + "vnd.openxmlformats-officedocument." + "wordprocessingml.document"

  function IsValidFileSize(file: File): (r: bool)
    ensures r <==> file.size <= 10485760
  {
    file.size <= MAX_FILE_SIZE
  }

  /** `ACCEPTED_FILE_TYPES.includes(file.type)`. */
  function IsValidFileType(file: File): (r: bool)
    ensures r <==> exists i :: 0 <= i < |ACCEPTED_FILE_TYPES| && ACCEPTED_FILE_TYPES[i] == file.mimeType
  {
    file.mimeType in ACCEPTED_FILE_TYPES
  }

  /** The type test is case-sensitive and whole-string: neither an upper-case spelling
      nor a type with parameters is accepted, nor a Word type given as an extension. */
  lemma TypeTestIsExact()
    ensures !IsValidFileType(File("a.png", "IMAGE/PNG", 1))
    ensures !IsValidFileType(File("a.txt", "text/plain; charset=utf-8", 1))
    ensures !IsValidFileType(File("a.doc", ".doc", 1))
    ensures IsValidFileType(File("", "text/plain", 0))
  {
  }

  /** The four icons: 🖼️ (framed picture), 📄 (page), 📝 (memo), 📎 (paperclip). */
  datatype Icon = Picture | Page | Memo | Paperclip

  /** The emoji string `getFileIcon` returns for each icon. */
  function Glyph(icon: Icon): string
  {
    match icon
    case Picture => "\U{1F5BC}\U{FE0F}"
    case Page => "\U{1F4C4}"
    case Memo => "\U{1F4DD}"
    case Paperclip => "\U{1F4CE}"
  }

  /** Different icons give different strings, so the string `getFileIcon` returns
      tells which of the four icons was chosen. */
  lemma GlyphsDistinct(a: Icon, b: Icon)
    ensures Glyph(a) == Glyph(b) <==> a == b
  {
  }

  /** First match wins: an image type, then PDF, then plain text, then any type
      containing "word"; everything else, the empty type included, gets the paperclip. */
  function GetFileIcon(file: File): (r: Icon)
    ensures r == Picture <==> StartsWith(file.mimeType, "image/")
    ensures r == Memo <==> !StartsWith(file.mimeType, "image/") && file.mimeType == "text/plain"
    ensures r == Page <==>
      (!StartsWith(file.mimeType, "image/")
      && (file.mimeType == "application/pdf"
          || (file.mimeType != "text/plain" && exists i :: OccursAt(file.mimeType, "word", i))))
  {
    var t := file.mimeType;
    if StartsWith(t, "image/") then Picture
    else if t == "application/pdf" then Page
    else if t == "text/plain" then Memo
    else if Contains(t, "word") then Page
    else Paperclip
  }

  /** Every accepted type gets an icon other than the paperclip; the two Word types get
      the page through the "word" substring test. */
  lemma AcceptedTypesHaveIcons(file: File)
    requires IsValidFileType(file)
    ensures GetFileIcon(file) != Paperclip
    ensures file.mimeType in ACCEPTED_FILE_TYPES[7..] ==>
      GetFileIcon(file) == Page && Contains(file.mimeType, "word") && file.mimeType != "application/pdf"
  {
    var t := file.mimeType;
    if t == "application/msword" {
      assert OccursAt(t, "word", 14);
      assert t[0] == 'a' && !StartsWith(t, "image/");
    } else if t == WORD_DOCX {
      var head, tail := "application/" + "vnd.openxmlformats-officedocument.", "wordprocessingml.document";
      assert t == head + tail && |head| == 46;
      assert t[46..50] == tail[..4] by {
        forall m | 0 <= m < 4 ensures t[46 + m] == tail[m] {
        }
      }
      assert OccursAt(t, "word", 46);
      assert t[0] == 'a' && !StartsWith(t, "image/");
      assert |t| != |"application/pdf"| && |t| != |"text/plain"|;
    } else if t in ACCEPTED_FILE_TYPES[..5] {
      assert StartsWith(t, "image/");
    }
  }

  /** The empty type (what browsers report for an unknown file) gets the paperclip. */
  lemma EmptyTypeGetsPaperclip(file: File)
    requires file.mimeType == ""
    ensures GetFileIcon(file) == Paperclip
  {
    assert !Contains("", "word");
  }

  /** The upload gates and the generic validator agree: validating against this
      service's limit and type list accepts a file exactly when both gates do, and
      refuses it for its size exactly when the size gate does. None of the listed
      types starts with '.', so each is compared with the MIME type exactly. */
  lemma GatesAgreeWithValidator(file: File)
    ensures Validations.ValidateFile(file, MAX_FILE_SIZE, ACCEPTED_FILE_TYPES).None?
      <==> IsValidFileSize(file) && IsValidFileType(file)
    ensures (Validations.ValidateFile(file, MAX_FILE_SIZE, ACCEPTED_FILE_TYPES)
             == Some(Validations.FileTooLarge(MAX_FILE_SIZE)))
      <==> !IsValidFileSize(file)
  {
    NoTypeIsAnExtension();
    forall i | 0 <= i < |ACCEPTED_FILE_TYPES|
      ensures Validations.EntryMatches(file, ACCEPTED_FILE_TYPES[i]) <==> file.mimeType == ACCEPTED_FILE_TYPES[i]
    {
      var entry := ACCEPTED_FILE_TYPES[i];
      assert entry[..1][0] == entry[0];
    }
  }

  lemma NoTypeIsAnExtension()
    ensures forall i :: 0 <= i < |ACCEPTED_FILE_TYPES| ==>
      |ACCEPTED_FILE_TYPES[i]| > 0 && ACCEPTED_FILE_TYPES[i][0] != '.'
  {
    var a := ACCEPTED_FILE_TYPES;
    assert a[0][0] == 'i' && a[1][0] == 'i' && a[2][0] == 'i' && a[3][0] == 'i' && a[4][0] == 'i';
    assert a[5][0] == 'a' && a[6][0] == 't' && a[7][0] == 'a' && a[8][0] == 'a';
  }
}
