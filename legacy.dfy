/** backend/main.py: the earlier, uncached variant of the screener. Its
    engine sends the first 6000 characters of the raw extracted text to the
    model and falls back to a fixed error record when anything fails; its
    handler checks the form in a fixed order and answers 400, 500 or 200. */
module Legacy {
  import opened Json
  import opened Text
  import opened Llm
  import opened Pdf

  /** The résumé budget of screen_resume, in characters of raw text. */
  const MaxResumeChars: nat := 6000

  /** A file part of the multipart form. */
  datatype Upload = Upload(filename: string, stream: seq<byte>)

  /** The parts of a POST /screen request the handler looks at. */
  datatype Request = Request(files: map<string, Upload>, form: map<string, string>)

  /** The record screen_resume answers with when the model call or the
      decoding of its answer raises `msg`. */
  function Fallback(msg: string): (r: Value)
    ensures r.Obj? && r.fields.Keys == {"error", "candidate_name", "match_score", "key_strengths",
                                        "missing_critical_skills", "recommendation", "reasoning"}
    ensures r.fields["error"] == Str(msg) && r.fields["match_score"] == Num(0)
    ensures r.fields["recommendation"] == Str("Error") && r.fields["candidate_name"] == Str("Unknown")
    ensures r.fields["key_strengths"] == Arr([]) && r.fields["missing_critical_skills"] == Arr([])
    ensures r.fields["reasoning"] == Str("Failed to process the resume")
  {
    Obj(map[
      "error" := Str(msg),
      "candidate_name" := Str("Unknown"),
      "match_score" := Num(0),
      "key_strengths" := Arr([]),
      "missing_critical_skills" := Arr([]),
      "recommendation" := Str("Error"),
      "reasoning" := Str("Failed to process the resume")
    ])
  }

  /** screen_resume(resume_text, job_description): the model is shown only the
      first 6000 characters; its decoded answer is returned as it is, whatever
      it holds, and any failure becomes the fallback record. */
  function ScreenResume(chat: Prompt -> ChatReply, loads: string -> Parsed, resumeText: string, jd: string): (r: Value)
    ensures var reply := chat(Prompt(jd, Take(resumeText, MaxResumeChars)));
      (reply.Answered? && loads(reply.content).Parsed? ==> r == loads(reply.content).value) &&
      (reply.ChatFailed? ==> r == Fallback(reply.msg)) &&
      (reply.Answered? && loads(reply.content).Malformed? ==> r == Fallback(loads(reply.content).msg))
  {
    match ParseReply(chat(Prompt(jd, Take(resumeText, MaxResumeChars))), loads)
    case Returned(result) => result
    case Raised(m) => Fallback(m)
  }

  /** The four checks of the handler, all passed: a resume file, a job
      description, a ".pdf" filename, and a PDF whose text is not blank. */
  predicate Admitted(req: Request, readPdf: Reader)
  {
    "resume" in req.files && "job_description" in req.form &&
    EndsWith(req.files["resume"].filename, ".pdf") &&
    readPdf(req.files["resume"].stream).Opened? &&
    Strip(Concat(readPdf(req.files["resume"].stream).pageTexts)) != ""
  }

  /** extract_text_from_pdf: `text += page.get_text()` over the pages in
      document order, starting from "". */
  method ExtractTextFromPdf(readPdf: Reader, stream: seq<byte>) returns (out: Outcome<string>)
    ensures out.Raised? <==> readPdf(stream).NotAPdf?
    ensures out.Raised? ==> out.msg == readPdf(stream).msg
    ensures out.Returned? ==> out.value == Concat(readPdf(stream).pageTexts)
  {
    match readPdf(stream)
    case NotAPdf(m) =>
      return Raised(m);
    case Opened(pages) =>
      var text := "";
      var i := 0;
      while i < |pages|
        invariant 0 <= i <= |pages|
        invariant text == Concat(pages[..i])
      {
        ConcatAppend(pages[..i], [pages[i]]);
        assert pages[..i + 1] == pages[..i] + [pages[i]];
        text := text + pages[i];
        i := i + 1;
      }
      assert pages[..|pages|] == pages;
      out := Returned(text);
  }

  /** POST /screen. Checks in order: the resume file, the job description,
      the filename suffix, the extracted text; every exception inside becomes
      500 with {"error": msg}. */
  method Screen(req: Request, readPdf: Reader, chat: Prompt -> ChatReply, loads: string -> Parsed)
    returns (resp: Response)
    ensures "resume" !in req.files ==>
      resp == Response(400, ErrorRecord("No resume file provided"))
    ensures "resume" in req.files && "job_description" !in req.form ==>
      resp == Response(400, ErrorRecord("No job description provided"))
    ensures "resume" in req.files && "job_description" in req.form &&
            !EndsWith(req.files["resume"].filename, ".pdf") ==>
      resp == Response(400, ErrorRecord("Only PDF files are allowed"))
    ensures "resume" in req.files && "job_description" in req.form &&
            EndsWith(req.files["resume"].filename, ".pdf") &&
            readPdf(req.files["resume"].stream).NotAPdf? ==>
      resp == Response(500, ErrorRecord(readPdf(req.files["resume"].stream).msg))
    ensures "resume" in req.files && "job_description" in req.form &&
            EndsWith(req.files["resume"].filename, ".pdf") &&
            readPdf(req.files["resume"].stream).Opened? &&
            Strip(Concat(readPdf(req.files["resume"].stream).pageTexts)) == "" ==>
      resp == Response(400, ErrorRecord("Could not extract text from PDF"))
    ensures resp.status == 200 <==> Admitted(req, readPdf)
    ensures Admitted(req, readPdf) ==>
      resp.body == ScreenResume(chat, loads, Concat(readPdf(req.files["resume"].stream).pageTexts),
                                req.form["job_description"])
  {
    if "resume" !in req.files {
      return Response(400, ErrorRecord("No resume file provided"));
    }
    if "job_description" !in req.form {
      return Response(400, ErrorRecord("No job description provided"));
    }
    var resumeFile := req.files["resume"];
    var jobDescription := req.form["job_description"];
    if !EndsWith(resumeFile.filename, ".pdf") {
      return Response(400, ErrorRecord("Only PDF files are allowed"));
    }
    var text := ExtractTextFromPdf(readPdf, resumeFile.stream);
    if text.Raised? {
      return Response(500, ErrorRecord(text.msg));
    }
    if Strip(text.value) == "" {
      return Response(400, ErrorRecord("Could not extract text from PDF"));
    }
    var result := ScreenResume(chat, loads, text.value, jobDescription);
    resp := Response(200, result);
  }

  // ---------------------------------------------------------------------
  // Lemmas
  // ---------------------------------------------------------------------

  /** Only the first 6000 characters of the résumé matter: two résumés that
      agree on them are screened alike. */
  lemma ScreenResumeSeesOnlyPrefix(chat: Prompt -> ChatReply, loads: string -> Parsed,
                                   r1: string, r2: string, jd: string)
    requires Take(r1, MaxResumeChars) == Take(r2, MaxResumeChars)
    ensures ScreenResume(chat, loads, r1, jd) == ScreenResume(chat, loads, r2, jd)
  {
  }

  /** When the call or the decoding fails, the answer is the fallback record:
      "Unknown" candidate, score 0, empty skill lists, recommendation "Error"
      and the exception's message under "error". */
  lemma ScreenResumeOutcomes(chat: Prompt -> ChatReply, loads: string -> Parsed, resumeText: string, jd: string)
    ensures var r := ScreenResume(chat, loads, resumeText, jd);
      var reply := chat(Prompt(jd, Take(resumeText, MaxResumeChars)));
      (reply.ChatFailed? || loads(reply.content).Malformed?) ==>
        r.Obj? && r.fields["recommendation"] == Str("Error") && r.fields["match_score"] == Num(0) &&
        r.fields["key_strengths"] == Arr([]) && r.fields["missing_critical_skills"] == Arr([]) &&
        r.fields["candidate_name"] == Str("Unknown") &&
        r.fields["error"] == Str(if reply.ChatFailed? then reply.msg else loads(reply.content).msg)
  {
  }

  /** A score outside 0..100 in the model's answer reaches the caller as it is. */
  lemma NoScoreClamping(chat: Prompt -> ChatReply, loads: string -> Parsed, resumeText: string, jd: string)
    requires var reply := chat(Prompt(jd, Take(resumeText, MaxResumeChars)));
      reply.Answered? && loads(reply.content) == Parsed(Obj(map["match_score" := Num(150)]))
    ensures ScreenResume(chat, loads, resumeText, jd) == Obj(map["match_score" := Num(150)])
  {
  }
}
