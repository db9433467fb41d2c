/** src/components/content/ContentUploader.tsx: the URL form and the file
    form. The URL parser's verdict (`new URL(input)` throwing or not) and the
    object URL a file gets (`URL.createObjectURL`) are function parameters. */
module Uploader {
  import opened Wrappers
  import opened Text

  /** What `onContentAdded` receives. */
  datatype ContentInfo = ContentInfo(contentType: string, source: string, title: Option<string>)

  /** A file chosen in the picker (its bytes are not modelled). */
  datatype FileRef = FileRef(name: string)

  const UrlError: string := "Please enter a valid URL"
  const NoFileError: string := "Please select a file"
  const NoTitleError: string := "Please enter a title for your video"

  /** handleUrlSubmit's verdict: the content to add, or the error to show. */
  function UrlVerdict(urlInput: string, parses: string -> bool): Result<ContentInfo, string> {
    if IsBlank(urlInput) then Err(UrlError)
    else if !parses(urlInput) then Err(UrlError)
    else Ok(ContentInfo("url", urlInput, None))
  }

  /** handleFileSubmit's verdict: the file check comes before the title check. */
  function FileVerdict(selectedFile: Option<FileRef>, fileTitle: string,
                       objectUrl: FileRef -> string): Result<ContentInfo, string> {
    if selectedFile.None? then Err(NoFileError)
    else if IsBlank(fileTitle) then Err(NoTitleError)
    else Ok(ContentInfo("file", objectUrl(selectedFile.value), Some(fileTitle)))
  }

  /** A URL is accepted exactly when it is not blank and parses; the content
      then carries the input as typed (untrimmed) and no title; every refusal
      shows the same message. */
  lemma UrlVerdictMeaning(urlInput: string, parses: string -> bool)
    ensures var r := UrlVerdict(urlInput, parses);
      && (r.Ok? <==> (exists i :: 0 <= i < |urlInput| && !IsWhiteSpace(urlInput[i])) && parses(urlInput))
      && (r.Ok? ==> r.value == ContentInfo("url", urlInput, None))
      && (r.Err? ==> r.error == UrlError)
  {
    BlankIffAllWhiteSpace(urlInput);
  }

  /** Without a file the error is about the file, whatever the title; with a
      file, a title of only white space is refused; otherwise the content is the
      file's object URL titled as typed. An accepted content always has a title
      with a visible character. */
  lemma FileVerdictMeaning(selectedFile: Option<FileRef>, fileTitle: string, objectUrl: FileRef -> string)
    ensures var r := FileVerdict(selectedFile, fileTitle, objectUrl);
      && (selectedFile.None? ==> r == Err(NoFileError))
      && (selectedFile.Some? && AllWhiteSpace(fileTitle) ==> r == Err(NoTitleError))
      && (r.Ok? <==> selectedFile.Some? && !AllWhiteSpace(fileTitle))
      && (r.Ok? ==> && r.value.contentType == "file" && r.value.source == objectUrl(selectedFile.value)
                    && r.value.title == Some(fileTitle))
  {
    BlankIffAllWhiteSpace(fileTitle);
  }

  /** handleFileChange: the first file of a non-empty selection replaces the
      current one; an empty selection keeps it. */
  function AfterFileChange(selectedFile: Option<FileRef>, files: seq<FileRef>): Option<FileRef> {
    if |files| > 0 then Some(files[0]) else selectedFile
  }

  class ContentUploader {
    var urlInput: string
    var urlError: string
    var fileTitle: string
    var selectedFile: Option<FileRef>
    var fileError: string

    constructor ()
      ensures urlInput == "" && urlError == "" && fileTitle == "" && selectedFile == None && fileError == ""
    {
      urlInput, urlError, fileTitle, selectedFile, fileError := "", "", "", None, "";
    }

    /** The URL input's onChange. */
    method SetUrlInput(text: string)
      modifies this`urlInput
      ensures urlInput == text
    {
      urlInput := text;
    }

    /** The title input's onChange. */
    method SetFileTitle(text: string)
      modifies this`fileTitle
      ensures fileTitle == text
    {
      fileTitle := text;
    }

    /** Clears the URL error, then either shows an error or hands the content
        to `onContentAdded` (returned here); the file form is untouched. */
    method HandleUrlSubmit(parses: string -> bool) returns (added: Option<ContentInfo>)
      modifies this`urlError
      ensures var v := UrlVerdict(urlInput, parses);
        && (v.Ok? ==> added == Some(v.value) && urlError == "")
        && (v.Err? ==> added == None && urlError == v.error)
    {
      urlError := "";
      if IsBlank(urlInput) {
        urlError := UrlError;
        return None;
      }
      if !parses(urlInput) {
        urlError := UrlError;
        return None;
      }
      added := Some(ContentInfo("url", urlInput, None));
    }

    /** Clears the file error, then either shows an error or hands the content
        to `onContentAdded` (returned here); the URL form is untouched. */
    method HandleFileSubmit(objectUrl: FileRef -> string) returns (added: Option<ContentInfo>)
      modifies this`fileError
      ensures var v := FileVerdict(selectedFile, fileTitle, objectUrl);
        && (v.Ok? ==> added == Some(v.value) && fileError == "")
        && (v.Err? ==> added == None && fileError == v.error)
    {
      fileError := "";
      if selectedFile.None? {
        fileError := NoFileError;
        return None;
      }
      if IsBlank(fileTitle) {
        fileError := NoTitleError;
        return None;
      }
      added := Some(ContentInfo("file", objectUrl(selectedFile.value), Some(fileTitle)));
    }

    method HandleFileChange(files: seq<FileRef>)
      modifies this`selectedFile
      ensures selectedFile == AfterFileChange(old(selectedFile), files)
    {
      if |files| > 0 {
        selectedFile := Some(files[0]);
      }
    }
  }
}
