/** The document-intake helpers of lib/utils/file-parser.ts: the type check
    that decides whether an upload is read as text or refused, the size
    check, and the truncation of extracted text. Reading the file's contents
    is not modelled: an accepted file is reported as `ReadText`. */
module FileIntake {

  /** The outcome of `parseDocument` before any reading: the file's text is
      read, or the call fails with this message. */
  datatype Decision = ReadText | Reject(message: string)

  const PlainTextMime: string := "text/plain"
  const MarkdownMime: string := "text/markdown"
  const PdfMime: string := "application/pdf"
  const WordMime: string := "application/vnd.openxmlformats-officedocument.wordprocessingml.document"

  const PdfMessage: string :=
    "PDF parsing requires server-side processing. Please upload a .txt or .md file, or paste your text directly."
  const WordMessage: string :=
    "Word document parsing requires server-side processing. Please upload a .txt or .md file, or paste your text directly."

  function UnsupportedMessage(fileType: string): string
  {
    "Unsupported file type: " + fileType + ". Please upload a .txt or .md file."
  }

  /** `toLowerCase` on the ASCII letters. */
  function LowerChar(c: char): (l: char)
    ensures 'A' <= c <= 'Z' ==> l as int == c as int + 32
    ensures !('A' <= c <= 'Z') ==> l == c
    ensures !('A' <= l <= 'Z')
  {
    if 'A' <= c <= 'Z' then (c as int + 32) as char else c
  }

  /** `s.toLowerCase()`: every character lowered, the length kept. */
  function ToLower(s: string): (r: string)
    ensures |r| == |s|
    ensures forall i :: 0 <= i < |s| ==> r[i] == LowerChar(s[i])
    decreases |s|
  {
    if s == [] then [] else [LowerChar(s[0])] + ToLower(s[1..])
  }

  /** `s.endsWith(suffix)`. */
  predicate EndsWith(s: string, suffix: string)
  {
    |suffix| <= |s| && s[|s| - |suffix|..] == suffix
  }

  /** The three text extensions and their MIME types. */
  predicate IsTextFile(fileType: string, fileName: string)
  {
    || fileType == PlainTextMime || EndsWith(fileName, ".txt")
    || fileType == MarkdownMime || EndsWith(fileName, ".md") || EndsWith(fileName, ".markdown")
  }

  /** `parseDocument`'s decision, in the source's order of checks on the MIME
      type and the lower-cased name. */
  function ParseDecision(fileType: string, name: string): (d: Decision)
    ensures d == ReadText <==> IsTextFile(fileType, ToLower(name))
    ensures d.Reject? ==> d.message == PdfMessage || d.message == WordMessage || d.message == UnsupportedMessage(fileType)
  {
    var fileName := ToLower(name);
    if fileType == PlainTextMime || EndsWith(fileName, ".txt") then ReadText
    else if fileType == MarkdownMime || EndsWith(fileName, ".md") || EndsWith(fileName, ".markdown") then ReadText
    else if fileType == PdfMime || EndsWith(fileName, ".pdf") then Reject(PdfMessage)
    else if fileType == WordMime || EndsWith(fileName, ".docx") then Reject(WordMessage)
    else Reject(UnsupportedMessage(fileType))
  }

  /** A file is read exactly when it is a text file by MIME type or by its
      lower-cased name; every other file is refused, with the server-side
      message for PDF and Word documents and the unsupported-type message
      naming the MIME type otherwise. */
  lemma DecisionClassifies(fileType: string, name: string)
    ensures ParseDecision(fileType, name) == ReadText <==> IsTextFile(fileType, ToLower(name))
    ensures var n := ToLower(name);
            !IsTextFile(fileType, n) ==>
              ParseDecision(fileType, name) ==
                if fileType == PdfMime || EndsWith(n, ".pdf") then Reject(PdfMessage)
                else if fileType == WordMime || EndsWith(n, ".docx") then Reject(WordMessage)
                else Reject(UnsupportedMessage(fileType))
  {
  }

  /** The text checks come first: a PDF or Word document by name is still
      read when its MIME type is plain text or markdown. */
  lemma TextMimeWins(name: string)
    ensures ParseDecision(PlainTextMime, name) == ReadText
    ensures ParseDecision(MarkdownMime, name) == ReadText
  {
  }

  /** Lowering twice changes nothing. */
  lemma {:induction false} ToLowerIdempotent(s: string)
    ensures ToLower(ToLower(s)) == ToLower(s)
  {
    var l := ToLower(s);
    assert forall i :: 0 <= i < |l| ==> ToLower(l)[i] == l[i];
  }

  /** The decision ignores the case of the file name. */
  lemma DecisionIgnoresNameCase(fileType: string, name: string)
    ensures ParseDecision(fileType, name) == ParseDecision(fileType, ToLower(name))
  {
    ToLowerIdempotent(name);
  }

  /** A name ending in upper-case ".TXT" is read whatever its MIME type. */
  lemma UpperCaseExtensionAccepted(fileType: string, name: string)
    requires EndsWith(name, ".TXT")
    ensures ParseDecision(fileType, name) == ReadText
  {
    var l := ToLower(name);
    var n := |name|;
    assert name[n - 4..] == ".TXT";
    assert name[n - 4] == '.' && name[n - 3] == 'T' && name[n - 2] == 'X' && name[n - 1] == 'T';
    assert l[n - 4..] == ".txt";
  }

  // ---------------------------------------------------------------------
  // Size limit and truncation.

  const DefaultMaxSizeMB: nat := 10
  const DefaultMaxChars: nat := 20000

  /** `validateDocumentSize`: the size in bytes is within the limit in MiB. */
  function ValidateDocumentSize(size: nat, maxSizeMB: nat := DefaultMaxSizeMB): (ok: bool)
    ensures ok ==> size <= maxSizeMB * 1048576
    ensures !ok ==> size > maxSizeMB * 1048576
  {
    size <= maxSizeMB * 1024 * 1024
  }

  /** The default limit is 10485760 bytes, and a file within a limit stays
      within it when it is smaller or the limit is larger. */
  lemma SizeLimit(size: nat, smaller: nat, maxSizeMB: nat, larger: nat)
    requires smaller <= size && maxSizeMB <= larger
    ensures ValidateDocumentSize(size) <==> size <= 10485760
    ensures ValidateDocumentSize(size, maxSizeMB) ==> ValidateDocumentSize(smaller, larger)
  {
    assert maxSizeMB * 1048576 <= larger * 1048576;
  }

  /** `truncateText`: the text itself when it fits, otherwise its prefix of
      exactly `maxChars` characters. */
  function TruncateText(text: string, maxChars: nat := DefaultMaxChars): (r: string)
    ensures r <= text
    ensures |r| <= maxChars
    ensures |r| == if |text| <= maxChars then |text| else maxChars
  {
    if |text| <= maxChars then text else text[..maxChars]
  }

  /** Truncation keeps the longest prefix that fits, and truncating again
      changes nothing. */
  lemma TruncateLongestPrefix(text: string, maxChars: nat, p: string)
    requires p <= text && |p| <= maxChars
    ensures p <= TruncateText(text, maxChars)
    ensures TruncateText(TruncateText(text, maxChars), maxChars) == TruncateText(text, maxChars)
  {
  }
}
