/**
  The entry point of the intern-event generator: reading the uploaded
  codebase files into one context text, choosing the user-prompt builder by
  mode, and assembling the two chat messages sent to the model.

  The model server itself (listing models, streaming the reply) is not part
  of this module; the timeline treats the whole generator as an oracle.
 */
module Generator {
  import opened Text
  import opened Prompts

  // ---------------------------------------------------------------------------
  // Uploaded files
  // ---------------------------------------------------------------------------

  /** An uploaded file: its name and its decoded contents, or `None` when reading it failed. */
  datatype UploadedFile = UploadedFile(name: string, content: Option<string>)

  const FileHeadOpen := "--- File: "
  const FileHeadClose := " ---"
  const UnreadableNote := " (could not read)\n"

  /** The header of one file's part. */
  function FileHeader(f: UploadedFile): string {
    FileHeadOpen + f.name + FileHeadClose
  }

  /** The part one file contributes to the codebase context. */
  function FilePart(f: UploadedFile): string {
    match f.content
    case Some(c) => FileHeader(f) + "\n" + c + "\n"
    case None => FileHeader(f) + UnreadableNote
  }

  /** One part per file, in the order the files were given. */
  function FileParts(files: seq<UploadedFile>): seq<string> {
    seq(|files|, i requires 0 <= i < |files| => FilePart(files[i]))
  }

  /**
    The codebase context `_read_uploaded_files` returns: none for no files,
    else the parts joined by newlines, so that it opens with the first file's
    header and closes with the last file's part.
   */
  function FilesContext(files: seq<UploadedFile>): (r: Option<string>)
    ensures r.None? <==> files == []
    ensures files != [] ==> StartsWith(r.value, FileHeader(files[0]))
    ensures files != [] ==> EndsWith(r.value, FilePart(files[|files| - 1]))
  {
    if files == [] then None
    else
      var parts := FileParts(files);
      JoinEnds("\n", parts);
      FilePartShape(files[0]);
      PrefixTrans(FileHeader(files[0]), FilePart(files[0]), Join("\n", parts));
      Some(Join("\n", parts))
  }

  /** The parts of a longer list of files extend the parts of its prefix by the new file's part. */
  lemma FilePartsSnoc(files: seq<UploadedFile>, f: UploadedFile)
    ensures FileParts(files + [f]) == FileParts(files) + [FilePart(f)]
  {
    var l, r := FileParts(files + [f]), FileParts(files) + [FilePart(f)];
    assert |l| == |r|;
    forall i | 0 <= i < |l| ensures l[i] == r[i] {
      if i < |files| {
        assert (files + [f])[i] == files[i];
      }
    }
  }

  /**
    Each part starts with the file's `--- File: name ---` header. A readable
    file's part is the header, a newline, the contents and a newline; an
    unreadable file's part is the header and the `(could not read)`
    placeholder. The character right after the header tells the two apart.
   */
  lemma FilePartShape(f: UploadedFile)
    ensures StartsWith(FilePart(f), FileHeader(f))
    ensures f.content.Some? ==> FilePart(f) == FileHeader(f) + ("\n" + f.content.value + "\n")
    ensures f.content.None? ==> FilePart(f) == FileHeader(f) + UnreadableNote
    ensures |FilePart(f)| > |FileHeader(f)|
    ensures FilePart(f)[|FileHeader(f)|] == if f.content.Some? then '\n' else ' '
  {
    var head := FileHeader(f);
    match f.content {
      case Some(c) =>
        var body := "\n" + c + "\n";
        assert head + "\n" + c + "\n" == head + body;
        PrefixOfConcat(head, body);
        DropPrefix(head, body);
      case None =>
        assert UnreadableNote[0] == ' ';
        PrefixOfConcat(head, UnreadableNote);
        DropPrefix(head, UnreadableNote);
    }
  }

  /** Adding one more file extends the context by a newline and that file's part. */
  lemma FilesContextSnoc(files: seq<UploadedFile>, f: UploadedFile)
    ensures FilesContext(files + [f]).Some?
    ensures FilesContext(files + [f]).value
            == if files == [] then FilePart(f) else FilesContext(files).value + "\n" + FilePart(f)
  {
    FilePartsSnoc(files, f);
    JoinAppend("\n", FileParts(files), FilePart(f));
  }

  /**
    `_read_uploaded_files`: no context when there are no files; otherwise one
    part per file in order, readable or not, joined by newlines.
   */
  method ReadUploadedFiles(files: seq<UploadedFile>) returns (r: Option<string>)
    ensures r == FilesContext(files)
    ensures r.None? <==> files == []
  {
    if files == [] {
      return None;
    }
    var parts: seq<string> := [];
    var i := 0;
    while i < |files|
      invariant 0 <= i <= |files|
      invariant parts == FileParts(files[..i])
    {
      assert files[..i + 1] == files[..i] + [files[i]];
      FilePartsSnoc(files[..i], files[i]);
      parts := parts + [FilePart(files[i])];
      i := i + 1;
    }
    assert files[..|files|] == files;
    r := Some(Join("\n", parts));
  }

  // ---------------------------------------------------------------------------
  // Prompt dispatch and messages
  // ---------------------------------------------------------------------------

  /** The arguments of `generate_events`. */
  datatype EventsRequest = EventsRequest(
    model: string,
    projectDescription: string,
    mode: string,
    discipline: Option<string>,
    numWeeks: int,
    files: seq<UploadedFile>,
    previousEvents: Option<string>,
    feedback: Option<string>,
    startWeek: int,
    crossReference: bool)

  /**
    The user prompt for a request, given the codebase context read from its
    files: the builder the mode chooses (`single`, `set`, anything else for
    all disciplines), so that it starts with that builder's introduction and
    ends with the closer and that builder's suffix.
   */
  function UserPrompt(req: EventsRequest, codebase: Option<string>): (r: string)
    ensures StartsWith(r, RequestIntro(req))
    ensures EndsWith(r, PromptCloser + RequestSuffix(req))
  {
    ConcatEmpty(PromptCloser);
    if req.mode == "single" then
      SingleEventPrompt(req.projectDescription, req.discipline, codebase, req.previousEvents, req.feedback,
                        Some(req.startWeek))
    else if req.mode == "set" then
      SetPrompt(req.projectDescription, req.discipline, req.numWeeks, codebase, req.previousEvents, req.feedback,
                req.startWeek)
    else
      AllDisciplinesPrompt(req.projectDescription, req.numWeeks, codebase, req.previousEvents, req.feedback,
                           req.startWeek, req.crossReference)
  }

  /** The introduction the chosen builder starts with. */
  function RequestIntro(req: EventsRequest): string {
    if req.mode == "single" then SingleEventIntro(req.projectDescription, req.discipline, Some(req.startWeek))
    else if req.mode == "set" then SetIntro(req.projectDescription, req.discipline, req.numWeeks, req.startWeek)
    else AllDisciplinesIntro(req.projectDescription, req.numWeeks, req.startWeek)
  }

  /** Whether the cross-discipline instruction is asked for and the chosen builder honours it. */
  predicate CrossReferenceUsed(req: EventsRequest) {
    req.crossReference && req.mode != "single" && req.mode != "set"
  }

  /** The note the chosen builder puts before the codebase context. */
  function RequestNote(req: EventsRequest): string {
    if req.mode == "single" then SingleCodebaseNote else SetCodebaseNote
  }

  /** What the chosen builder puts after the closer. */
  function RequestSuffix(req: EventsRequest): string {
    if req.mode == "single" then SingleEventSuffix else ""
  }

  /** The sections the chosen builder appends after its introduction. */
  function RequestSections(req: EventsRequest, codebase: Option<string>): seq<Section> {
    Sections(CrossReferenceUsed(req), req.previousEvents, req.feedback, codebase, RequestNote(req),
             RequestSuffix(req))
  }

  /** Every builder is its introduction followed by the shared step-by-step tail. */
  lemma UserPromptIsTail(req: EventsRequest, codebase: Option<string>)
    ensures UserPrompt(req, codebase)
            == AppendTail(RequestIntro(req), CrossReferenceUsed(req), req.previousEvents, req.feedback, codebase,
                          RequestNote(req), RequestSuffix(req))
  {
  }

  /**
    Every user prompt is the chosen builder's introduction followed by its
    ordered sections; the cross-discipline instruction is among them exactly
    when it was asked for and the mode is neither `single` nor `set`.
   */
  lemma UserPromptLayout(req: EventsRequest, codebase: Option<string>)
    ensures UserPrompt(req, codebase) == RequestIntro(req) + Render(RequestSections(req, codebase))
    ensures CrossReference in RequestSections(req, codebase) <==> CrossReferenceUsed(req)
  {
    UserPromptIsTail(req, codebase);
    AppendTailLayout(RequestIntro(req), CrossReferenceUsed(req), req.previousEvents, req.feedback, codebase,
                     RequestNote(req), RequestSuffix(req));
    SectionsOrdered(CrossReferenceUsed(req), req.previousEvents, req.feedback, codebase, RequestNote(req),
                    RequestSuffix(req));
  }

  /** The one-event instruction is shorter than the closer and is not how the closer ends. */
  lemma ClosingTails()
    ensures |SingleEventSuffix| <= |PromptCloser|
    ensures !EndsWith(PromptCloser, SingleEventSuffix)
  {
    var tail := PromptCloser[|PromptCloser| - |SingleEventSuffix|..];
    assert tail[|tail| - 2] != SingleEventSuffix[|SingleEventSuffix| - 2];
  }

  /** A text ending with the bare closer does not end with the closer and the one-event instruction. */
  lemma CloserExcludesSuffix(r: string)
    requires EndsWith(r, PromptCloser)
    ensures !EndsWith(r, PromptCloser + SingleEventSuffix)
  {
    ClosingTails();
    EndsWithExtension(r, PromptCloser, SingleEventSuffix);
  }

  /**
    A user prompt ends with the closer followed by the one-event instruction
    exactly in `single` mode; in every other mode it ends with the bare closer.
   */
  lemma UserPromptClosing(req: EventsRequest, codebase: Option<string>)
    ensures EndsWith(UserPrompt(req, codebase), PromptCloser + SingleEventSuffix) <==> req.mode == "single"
    ensures req.mode != "single" ==> EndsWith(UserPrompt(req, codebase), PromptCloser)
  {
    UserPromptIsTail(req, codebase);
    AppendTailFrame(RequestIntro(req), CrossReferenceUsed(req), req.previousEvents, req.feedback, codebase,
                    RequestNote(req), RequestSuffix(req));
    if req.mode != "single" {
      ConcatEmpty(PromptCloser);
      CloserExcludesSuffix(UserPrompt(req, codebase));
    }
  }

  datatype Role = System | User

  datatype Message = Message(role: Role, content: string)

  /**
    The two chat messages of a request, given its codebase context: first the
    system prompt, which opens with the base text, then the user prompt, which
    ends with the closer and the chosen builder's suffix.
   */
  function Messages(req: EventsRequest, codebase: Option<string>): (r: seq<Message>)
    ensures |r| == 2 && r[0].role == System && r[1].role == User
    ensures StartsWith(r[0].content, SystemBase) && EndsWith(r[0].content, SystemRules)
    ensures StartsWith(r[1].content, RequestIntro(req)) && EndsWith(r[1].content, PromptCloser + RequestSuffix(req))
  {
    [Message(System, SystemPrompt(req.mode, req.discipline)), Message(User, UserPrompt(req, codebase))]
  }

  /**
    What `generate_events` sends before streaming: the uploaded files are read
    into the codebase context, and the messages are the system prompt for the
    mode and discipline followed by the user prompt.
   */
  method PrepareMessages(req: EventsRequest) returns (messages: seq<Message>)
    ensures messages == Messages(req, FilesContext(req.files))
    ensures |messages| == 2 && messages[0].role == System && messages[1].role == User
  {
    var codebase := ReadUploadedFiles(req.files);
    var user := UserPrompt(req, codebase);
    messages := [Message(System, SystemPrompt(req.mode, req.discipline)), Message(User, user)];
  }
}
