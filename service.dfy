/** main.py: the cached screening service. A request's résumé is extracted
    from the PDF, normalised and, with the job description as given, looked up
    in a Valkey/Redis cache under a SHA-256 key; on a miss the language model
    is asked, its JSON answer is tagged "MISS" and stored with the cache TTL;
    on a hit the stored answer is returned tagged "HIT". */
module Service {
  import opened Json
  import opened Text
  import opened Fingerprint
  import opened Llm
  import opened Pdf

  /** The field both cache paths overwrite in the returned dict. */
  const CacheField := "cache"

  /** A stored string and the TTL argument it was written with; when it
      expires is not represented. */
  datatype Entry = Entry(value: string, ttlSeconds: int)

  /** The configuration and the foreign functions main.py works with:
      SHA-256, the JSON codec, PyMuPDF, and CACHE_TTL (read from the
      environment at start-up, 86400 seconds when unset). */
  datatype Deps = Deps(sha256: Sha256, codec: Codec, readPdf: Reader, cacheTtl: int)

  /** The result of one screen_with_llm call together with the cache
      contents and the log of model prompts afterwards. */
  datatype Step = Step(out: Outcome<Value>, entries: map<string, Entry>, prompts: seq<Prompt>)

  /** `if cached:` in screen_with_llm: the key is present and its value is a
      non-empty string. */
  predicate IsHit(entries: map<string, Entry>, key: string): (b: bool)
    // an absent key is a miss
    ensures key !in entries ==> !b
    // a stored empty string is falsy, so it is a miss too
    ensures key in entries && entries[key].value == "" ==> !b
    // every other stored string is a hit
    ensures key in entries && entries[key].value != "" ==> b
  {
    key in entries && entries[key].value != ""
  }

  /** The HIT path: json.loads of the stored text, then data["cache"] = "HIT".
      Neither step is inside the try block, so their exceptions escape. */
  function FromCache(codec: Codec, stored: string): (r: Outcome<Value>)
    ensures codec.loads(stored).Malformed? ==> r == Raised(codec.loads(stored).msg)
    ensures codec.loads(stored).Parsed? && codec.loads(stored).value.Obj? ==>
      r == Returned(Obj(codec.loads(stored).value.fields[CacheField := Str("HIT")]))
    ensures codec.loads(stored).Parsed? && !codec.loads(stored).value.Obj? ==> r.Raised?
  {
    match codec.loads(stored)
    case Malformed(m) => Raised(m)
    case Parsed(data) => SetItem(data, CacheField, Str("HIT"))
  }

  /** The MISS path up to the write: decode the model's reply, then
      result["cache"] = "MISS". */
  function Tagged(codec: Codec, reply: ChatReply): (r: Outcome<Value>)
    ensures r.Returned? <==> ParseReply(reply, codec.loads).Returned? && ParseReply(reply, codec.loads).value.Obj?
    ensures r.Returned? ==>
      r.value == Obj(ParseReply(reply, codec.loads).value.fields[CacheField := Str("MISS")])
    // the exception is the call's or the decoder's, or else the TypeError of
    // assigning a key to a decoded answer that is not a dict
    ensures r.Raised? ==>
      r.msg == (if ParseReply(reply, codec.loads).Raised? then ParseReply(reply, codec.loads).msg
                else ItemAssignmentError(ParseReply(reply, codec.loads).value))
  {
    match ParseReply(reply, codec.loads)
    case Raised(m) => Raised(m)
    case Returned(result) => SetItem(result, CacheField, Str("MISS"))
  }

  /** The error message Valkey answers SETEX with when the TTL is not a
      positive number of seconds, or more seconds than fit in a signed
      64-bit count of milliseconds (redis-py drops the "ERR " prefix). */
  const InvalidExpireTime := "invalid expire time in 'setex' command"

  /** The error message Valkey answers with when the TTL argument does not
      parse as a signed 64-bit integer. */
  const NotAnInteger := "value is not an integer or out of range"

  /** The range of a signed 64-bit integer (C's long long). */
  const MinLongLong: int := -0x8000_0000_0000_0000
  const MaxLongLong: int := 0x7fff_ffff_ffff_ffff

  /** The largest TTL, in seconds, Valkey accepts: LLONG_MAX / 1000. */
  const MaxTtlSeconds: int := MaxLongLong / 1000

  /** Why `SETEX key ttlSeconds value` raises, if it does: the connection
      fails first; then the server refuses a TTL that is not a 64-bit
      integer, and then one that is not positive or too large to count in
      milliseconds. */
  function WriteError(writeFault: Option<string>, ttlSeconds: int): (e: Option<string>)
    ensures e.None? <==> writeFault.None? && 0 < ttlSeconds <= MaxTtlSeconds
    ensures writeFault.Some? ==> e == writeFault
    ensures writeFault.None? && !(MinLongLong <= ttlSeconds <= MaxLongLong) ==> e == Some(NotAnInteger)
    ensures writeFault.None? && MinLongLong <= ttlSeconds <= MaxLongLong && !(0 < ttlSeconds <= MaxTtlSeconds) ==>
      e == Some(InvalidExpireTime)
  {
    if writeFault.Some? then writeFault
    else if ttlSeconds < MinLongLong || ttlSeconds > MaxLongLong then Some(NotAnInteger)
    else if ttlSeconds <= 0 || ttlSeconds > MaxTtlSeconds then Some(InvalidExpireTime)
    else None
  }

  /** One run of screen_with_llm(resume, jd) against a cache holding
      `entries` (whose reads raise `readFault` and whose writes raise
      `writeFault`, when set) and a model that has been sent `prompts` so far
      and answers its n-th prompt p with backend(n, p). */
  function ScreenStep(d: Deps, backend: (nat, Prompt) -> ChatReply,
                      entries: map<string, Entry>, readFault: Option<string>, writeFault: Option<string>,
                      prompts: seq<Prompt>, resume: string, jd: string): (s: Step)
    // the model is asked at most once, about this résumé and this job description
    ensures s.prompts == prompts || s.prompts == prompts + [Prompt(jd, resume)]
    // a failing cache read is not caught, and nothing else happens
    ensures readFault.Some? ==> s == Step(Raised(readFault.value), entries, prompts)
    // a hit never asks the model and never writes
    ensures readFault.None? && IsHit(entries, CacheKey(d.sha256, resume, jd)) ==>
      s == Step(FromCache(d.codec, entries[CacheKey(d.sha256, resume, jd)].value), entries, prompts)
    // a miss asks the model exactly once
    ensures readFault.None? && !IsHit(entries, CacheKey(d.sha256, resume, jd)) ==>
      s.prompts == prompts + [Prompt(jd, resume)] && s.out.Returned?
    // a failure of the call, the decoding or the tagging gives {"error": msg}
    // and leaves the cache alone
    ensures readFault.None? && !IsHit(entries, CacheKey(d.sha256, resume, jd)) &&
            Tagged(d.codec, backend(|prompts|, Prompt(jd, resume))).Raised? ==>
      s.out == Returned(ErrorRecord(Tagged(d.codec, backend(|prompts|, Prompt(jd, resume))).msg)) &&
      s.entries == entries
    // a failing write (a broken connection, or a CACHE_TTL the server
    // refuses) gives {"error": msg} and leaves the cache alone
    ensures readFault.None? && !IsHit(entries, CacheKey(d.sha256, resume, jd)) &&
            Tagged(d.codec, backend(|prompts|, Prompt(jd, resume))).Returned? &&
            WriteError(writeFault, d.cacheTtl).Some? ==>
      s.out == Returned(ErrorRecord(WriteError(writeFault, d.cacheTtl).value)) && s.entries == entries
    // a successful miss returns the MISS-tagged record and stores its
    // serialisation under this request's key with CACHE_TTL
    ensures readFault.None? && !IsHit(entries, CacheKey(d.sha256, resume, jd)) &&
            Tagged(d.codec, backend(|prompts|, Prompt(jd, resume))).Returned? &&
            WriteError(writeFault, d.cacheTtl).None? ==>
      s.out == Tagged(d.codec, backend(|prompts|, Prompt(jd, resume))) &&
      s.entries == entries[CacheKey(d.sha256, resume, jd) := Entry(d.codec.dumps(s.out.value), d.cacheTtl)]
    // the cache changes only by storing, under this request's key and with the
    // configured TTL, the serialisation of the very record returned, MISS tag included
    ensures s.entries == entries ||
      (s.out.Returned? && s.out.value.Obj? && CacheField in s.out.value.fields &&
       s.out.value.fields[CacheField] == Str("MISS") &&
       s.entries == entries[CacheKey(d.sha256, resume, jd) := Entry(d.codec.dumps(s.out.value), d.cacheTtl)])
  {
    var key := CacheKey(d.sha256, resume, jd);
    if readFault.Some? then Step(Raised(readFault.value), entries, prompts)
    else if IsHit(entries, key) then Step(FromCache(d.codec, entries[key].value), entries, prompts)
    else
      var p := Prompt(jd, resume);
      var calls := prompts + [p];
      match Tagged(d.codec, backend(|prompts|, p))
      case Raised(m) => Step(Returned(ErrorRecord(m)), entries, calls)
      case Returned(result) =>
        var failure := WriteError(writeFault, d.cacheTtl);
        if failure.Some? then Step(Returned(ErrorRecord(failure.value)), entries, calls)
        else Step(Returned(result), entries[key := Entry(d.codec.dumps(result), d.cacheTtl)], calls)
  }

  /** extract_text_from_pdf: the page texts joined in document order, or the
      exception PyMuPDF raised. */
  function ExtractText(readPdf: Reader, upload: seq<byte>): (r: Outcome<string>)
    ensures r.Raised? <==> readPdf(upload).NotAPdf?
    ensures r.Raised? ==> r.msg == readPdf(upload).msg
    ensures r.Returned? ==> r.value == Concat(readPdf(upload).pageTexts)
  {
    match readPdf(upload)
    case NotAPdf(m) => Raised(m)
    case Opened(pages) => Returned(Concat(pages))
  }

  /** HTTPException(400, detail) as the framework renders it. */
  function Rejection(detail: string): (r: Response)
    ensures r.status == 400 && r.body.Obj? && r.body.fields.Keys == {"detail"}
    ensures r.body.fields["detail"] == Str(detail)
  {
    Response(400, Obj(map["detail" := Str(detail)]))
  }

  /** The Valkey connection. Its contents, and whether reads or writes
      currently raise (a refused or timed-out socket), are its state. */
  class Valkey {
    var entries: map<string, Entry>
    var readFault: Option<string>
    var writeFault: Option<string>

    constructor (entries: map<string, Entry>, readFault: Option<string>, writeFault: Option<string>)
      ensures this.entries == entries && this.readFault == readFault && this.writeFault == writeFault
    {
      this.entries := entries;
      this.readFault := readFault;
      this.writeFault := writeFault;
    }

    /** GET key: the stored string, or None when absent. */
    method Get(key: string) returns (r: Outcome<Option<string>>)
      ensures readFault.Some? ==> r == Raised(readFault.value)
      ensures readFault.None? ==> r.Returned? && (r.value.Some? <==> key in entries)
      ensures readFault.None? && key in entries ==> r.value.value == entries[key].value
    {
      if readFault.Some? {
        return Raised(readFault.value);
      }
      r := Returned(if key in entries then Some(entries[key].value) else None);
    }

    /** SETEX key ttl value: overwrite unconditionally, provided the
        connection works and the server accepts the TTL. */
    method SetEx(key: string, ttlSeconds: int, value: string) returns (r: Outcome<()>)
      modifies this`entries
      ensures writeFault.Some? ==> r == Raised(writeFault.value) && entries == old(entries)
      ensures writeFault.None? && !(MinLongLong <= ttlSeconds <= MaxLongLong) ==>
        r == Raised(NotAnInteger) && entries == old(entries)
      ensures writeFault.None? && MinLongLong <= ttlSeconds <= MaxLongLong && !(0 < ttlSeconds <= MaxTtlSeconds) ==>
        r == Raised(InvalidExpireTime) && entries == old(entries)
      ensures writeFault.None? && 0 < ttlSeconds <= MaxTtlSeconds ==>
        r == Returned(()) && entries == old(entries)[key := Entry(value, ttlSeconds)]
    {
      if writeFault.Some? {
        return Raised(writeFault.value);
      }
      if ttlSeconds < MinLongLong || ttlSeconds > MaxLongLong {
        return Raised(NotAnInteger);
      }
      if ttlSeconds <= 0 || ttlSeconds > MaxTtlSeconds {
        return Raised(InvalidExpireTime);
      }
      entries := entries[key := Entry(value, ttlSeconds)];
      r := Returned(());
    }
  }

  /** The Ollama client. `prompts` records every prompt sent, in order; the
      backend may answer the same prompt differently on different calls. */
  class ModelClient {
    var prompts: seq<Prompt>
    const backend: (nat, Prompt) -> ChatReply

    constructor (backend: (nat, Prompt) -> ChatReply)
      ensures prompts == [] && this.backend == backend
    {
      prompts := [];
      this.backend := backend;
    }

    /** client.chat(...) with the prompt built from `p`. */
    method Chat(p: Prompt) returns (r: ChatReply)
      modifies this`prompts
      ensures prompts == old(prompts) + [p]
      ensures r == backend(|old(prompts)|, p)
    {
      r := backend(|prompts|, p);
      prompts := prompts + [p];
    }
  }

  /** The application: the module-level clients and configuration of main.py. */
  class Api {
    const valkey: Valkey
    const ollama: ModelClient
    const deps: Deps

    constructor (valkey: Valkey, ollama: ModelClient, deps: Deps)
      ensures this.valkey == valkey && this.ollama == ollama && this.deps == deps
    {
      this.valkey := valkey;
      this.ollama := ollama;
      this.deps := deps;
    }

    /** screen_with_llm(resume, jd). */
    method ScreenWithLlm(resume: string, jd: string) returns (out: Outcome<Value>)
      modifies valkey`entries, ollama`prompts
      ensures Step(out, valkey.entries, ollama.prompts) ==
        ScreenStep(deps, ollama.backend, old(valkey.entries), valkey.readFault, valkey.writeFault,
                   old(ollama.prompts), resume, jd)
    {
      var key := CacheKey(deps.sha256, resume, jd);
      var cached := valkey.Get(key);
      if cached.Raised? {
        return Raised(cached.msg);
      }
      if cached.value.Some? && cached.value.value != "" {
        return FromCache(deps.codec, cached.value.value);
      }
      var reply := ollama.Chat(Prompt(jd, resume));
      var tagged := Tagged(deps.codec, reply);
      if tagged.Raised? {
        return Returned(ErrorRecord(tagged.msg));
      }
      var written := valkey.SetEx(key, deps.cacheTtl, deps.codec.dumps(tagged.value));
      if written.Raised? {
        return Returned(ErrorRecord(written.msg));
      }
      out := tagged;
    }

    /** POST /screen. An exception escaping it (Raised) is answered with 500
        by the framework. */
    method Screen(filename: string, upload: seq<byte>, jd: string) returns (out: Outcome<Response>)
      modifies valkey`entries, ollama`prompts
      ensures !EndsWith(filename, ".pdf") ==>
        out == Returned(Rejection("Only PDF allowed")) &&
        valkey.entries == old(valkey.entries) && ollama.prompts == old(ollama.prompts)
      ensures EndsWith(filename, ".pdf") && deps.readPdf(upload).NotAPdf? ==>
        out == Raised(deps.readPdf(upload).msg) &&
        valkey.entries == old(valkey.entries) && ollama.prompts == old(ollama.prompts)
      ensures EndsWith(filename, ".pdf") && deps.readPdf(upload).Opened? &&
              Strip(Concat(deps.readPdf(upload).pageTexts)) == "" ==>
        out == Returned(Rejection("Empty resume")) &&
        valkey.entries == old(valkey.entries) && ollama.prompts == old(ollama.prompts)
      ensures EndsWith(filename, ".pdf") && deps.readPdf(upload).Opened? &&
              Strip(Concat(deps.readPdf(upload).pageTexts)) != "" ==>
        var s := ScreenStep(deps, ollama.backend, old(valkey.entries), valkey.readFault, valkey.writeFault,
                            old(ollama.prompts), Normalize(Concat(deps.readPdf(upload).pageTexts)), jd);
        valkey.entries == s.entries && ollama.prompts == s.prompts &&
        out == (if s.out.Raised? then Raised(s.out.msg) else Returned(Response(200, s.out.value)))
    {
      if !EndsWith(filename, ".pdf") {
        return Returned(Rejection("Only PDF allowed"));
      }
      var text := ExtractText(deps.readPdf, upload);
      if text.Raised? {
        return Raised(text.msg);
      }
      if Strip(text.value) == "" {
        return Returned(Rejection("Empty resume"));
      }
      var result := ScreenWithLlm(Normalize(text.value), jd);
      if result.Raised? {
        return Raised(result.msg);
      }
      out := Returned(Response(200, result.value));
    }
  }

  // ---------------------------------------------------------------------
  // Lemmas
  // ---------------------------------------------------------------------

  /** Idempotent caching: with a healthy cache, a CACHE_TTL Valkey accepts and a
      codec that round-trips,
      repeating a request whose first answer carried a cache tag gives the
      same record tagged "HIT", without asking the model again and without
      writing. */
  lemma RepeatedRequestHits(d: Deps, backend: (nat, Prompt) -> ChatReply,
                            entries: map<string, Entry>, prompts: seq<Prompt>, resume: string, jd: string)
    requires RoundTrips(d.codec) && 0 < d.cacheTtl <= MaxTtlSeconds
    ensures
      var first := ScreenStep(d, backend, entries, None, None, prompts, resume, jd);
      var second := ScreenStep(d, backend, first.entries, None, None, first.prompts, resume, jd);
      first.out.Returned? && first.out.value.Obj? && CacheField in first.out.value.fields ==>
        second == Step(Returned(Obj(first.out.value.fields[CacheField := Str("HIT")])), first.entries, first.prompts)
  {
    var key := CacheKey(d.sha256, resume, jd);
    var first := ScreenStep(d, backend, entries, None, None, prompts, resume, jd);
    if first.out.Returned? && first.out.value.Obj? && CacheField in first.out.value.fields {
      var rec := first.out.value;
      if IsHit(entries, key) {
        var data := d.codec.loads(entries[key].value).value;
        assert rec == Obj(data.fields[CacheField := Str("HIT")]);
        assert rec.fields[CacheField := Str("HIT")] == rec.fields;
      } else {
        var reply := backend(|prompts|, Prompt(jd, resume));
        var tagged := Tagged(d.codec, reply);
        assert tagged.Returned? && tagged.value == rec;
        assert first.entries == entries[key := Entry(d.codec.dumps(rec), d.cacheTtl)];
        assert d.codec.loads(d.codec.dumps(rec)) == Parsed(rec) && d.codec.dumps(rec) != "";
        assert IsHit(first.entries, key);
      }
    }
  }

  /** With a CACHE_TTL Valkey accepts, what a successful miss stores decodes to
      exactly what it returned. */
  lemma MissStoresReturnedRecord(d: Deps, backend: (nat, Prompt) -> ChatReply,
                                 entries: map<string, Entry>, prompts: seq<Prompt>, resume: string, jd: string)
    requires RoundTrips(d.codec) && 0 < d.cacheTtl <= MaxTtlSeconds
    ensures
      var s := ScreenStep(d, backend, entries, None, None, prompts, resume, jd);
      var key := CacheKey(d.sha256, resume, jd);
      !IsHit(entries, key) && s.out.Returned? && s.out.value.Obj? && CacheField in s.out.value.fields ==>
        key in s.entries && d.codec.loads(s.entries[key].value) == Parsed(s.out.value) &&
        s.entries[key].ttlSeconds == d.cacheTtl
  {
  }

  /** A request that passes the blank check reaches the cache step with a
      résumé that is non-empty, collapsed and within the budget, and with the
      job description exactly as received. */
  lemma PipelineFeedsNormalizedResume(d: Deps, backend: (nat, Prompt) -> ChatReply,
                                      entries: map<string, Entry>, readFault: Option<string>,
                                      writeFault: Option<string>, prompts: seq<Prompt>,
                                      text: string, jd: string)
    requires Strip(text) != ""
    ensures
      var s := ScreenStep(d, backend, entries, readFault, writeFault, prompts, Normalize(text), jd);
      forall k :: |prompts| <= k < |s.prompts| ==>
        s.prompts[k].jobDescription == jd && s.prompts[k].resume != "" &&
        |s.prompts[k].resume| <= MaxNormalizedChars && Collapsed(s.prompts[k].resume)
  {
    StripBlankIffNormalizedEmpty(text);
    NewPromptsCarryRequest(d, backend, entries, readFault, writeFault, prompts, Normalize(text), jd);
  }

  /** Every prompt a step sends carries the request's résumé and job
      description. */
  lemma NewPromptsCarryRequest(d: Deps, backend: (nat, Prompt) -> ChatReply,
                               entries: map<string, Entry>, readFault: Option<string>,
                               writeFault: Option<string>, prompts: seq<Prompt>,
                               resume: string, jd: string)
    ensures
      var s := ScreenStep(d, backend, entries, readFault, writeFault, prompts, resume, jd);
      forall k :: |prompts| <= k < |s.prompts| ==> s.prompts[k] == Prompt(jd, resume)
  {
    var s := ScreenStep(d, backend, entries, readFault, writeFault, prompts, resume, jd);
    assert s.prompts == prompts || s.prompts == prompts + [Prompt(jd, resume)];
  }
}
