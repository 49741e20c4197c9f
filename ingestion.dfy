/** The synthesis pipeline: resolve URLs, assemble a tagged corpus behind the
    task prompt, guard and truncate it, cut it into fixed-size chunks, summarise
    each retained chunk and consolidate the partials with one last call. */
module Ingestion {
  import opened Wrappers
  import opened Strings
  import opened Governor
  import opened Completion

  /** At most this many URLs are fetched; later ones are dropped silently. */
  const UrlLimit: nat := 10
  /** Characters kept from a textual URL body. */
  const FetchMaxChars: nat := 200000
  /** Characters kept from each document or URL text inside the corpus. */
  const SegmentMaxChars: nat := 120000
  const Separator := "\n\n---\n\n"
  const DocTag := "[DOC_TXT]\n"
  const UrlTag := "[URL_TXT]\n"
  /** Returned, without any completion call, when no chunk survives. */
  const Sentinel := "lacuna: nenhum texto válido para sintetizar."
  const MapMaxTokens: nat := 900
  const ReduceMaxTokens: nat := 1800

  // ---------------------------------------------------------------- prompts
  // The fixed prompt texts, verbatim, each written as a sum of short literals.

  const PromptHead :=
    "Você vai atuar como um " + "sintetizador técnico e " + "fiel.\n" +
    "Especialidade (Core da " + "Célula Neural): "
  const PromptTail :=
    "\n\nTarefa:\n" +
    "1) Extraia terminologia " + "essencial e definições " + "(glossário).\n" +
    "2) Extraia regras de " + "negócio e constraints " + "(separar por categorias).\n" +
    "3) Identifique processos " + "(passo a passo) quando " + "existirem.\n" +
    "4) Identifique exceções, " + "riscos e zonas de " + "ambiguidade.\n" +
    "5) Gere uma Matriz de " + "Conhecimento em formato " + "estruturado (YAML ou JSON " + "legível).\n" +
    "\nRegras:\n" +
    "- Não invente fatos.\n" +
    "- Se algo não estiver nos " + "documentos, marque como " + "\"lacuna\".\n" +
    "- Priorize fidelidade e " + "concisão."

  /** The task-framing prompt: the specialty embedded in fixed text, which
      begins with a non-space character whatever the specialty is. */
  function BuildMatrixPrompt(specialty: string): (p: string)
    ensures p == PromptHead + specialty + PromptTail
    ensures p != [] && !IsSpace(p[0])
  {
    var x := PromptHead + specialty + PromptTail;
    assert PromptHead[0] == 'V' && PromptTail[|PromptTail| - 1] == '.';
    assert x[0] == 'V' && x[|x| - 1] == '.';
    StripFramed(x);
    Strip("\n" + x + "\n")
  }

  const SpecialtyLabel := "Core/Especialidade: "
  const MapSystem :=
    "Você é um motor de síntese " + "fiel e metódico. Produza " + "uma síntese curta e " + "estruturada."
  const MapMid := "\n\nTrecho de entrada:\n"
  const MapTail :=
    "\n\nProduza:\n" +
    "- glossário essencial\n" +
    "- regras/constraints " + "encontradas\n" +
    "- processos (se houver)\n" +
    "- exceções/ambiguidade\n" +
    "Formato: YAML curto"
  const ReduceSystem :=
    "Você é um consolidado " + "neuro-simbólico. Una " + "sínteses sem duplicar e sem " + "inventar."
  /** The consolidation instructions, up to the colon that introduces the
      partials. */
  const ReduceIntro :=
    "\n\nConsolide as sínteses " + "parciais em UMA Matriz " + "final.\n" +
    "Requisitos:\n" +
    "- Deduplicar termos e " + "regras\n" +
    "- Conflitos: marcar como " + "'conflito' (não resolver " + "inventando)\n" +
    "- Lacunas: manter como " + "'lacuna'\n" +
    "- Estrutura final em YAML " + "(ou JSON legível)\n" +
    "\nSínteses parciais:"
  const ReduceMid := ReduceIntro + "\n"

  /** The per-chunk user prompt: the chunk appears verbatim between fixed text. */
  function MapUserPrompt(specialty: string, chunk: string): (p: string)
    ensures p == SpecialtyLabel + specialty + MapMid + chunk + MapTail
  {
    var x := SpecialtyLabel + specialty + MapMid + chunk + MapTail;
    assert x[0] == 'C' && x[|x| - 1] == 'o';
    StripFramed(x);
    Strip("\n" + x + "\n")
  }

  /** The consolidation prompt: the partials joined in order; since they come
      last, only the trailing whitespace of the join is lost to `strip`. When
      the join is blank (a single empty reply, say) `strip` also takes the
      newline after the colon, and the prompt ends there. */
  function ReduceUserPrompt(specialty: string, partials: seq<string>): (p: string)
    ensures !Blank(Join(partials, Separator)) ==>
      p == SpecialtyLabel + specialty + ReduceMid + TrimRight(Join(partials, Separator))
    ensures Blank(Join(partials, Separator)) ==> p == SpecialtyLabel + specialty + ReduceIntro
  {
    var intro := SpecialtyLabel + specialty + ReduceIntro;
    assert intro[0] == 'C' && intro[|intro| - 1] == ':';
    var head := SpecialtyLabel + specialty + ReduceMid;
    assert head == intro + "\n";
    StripColonFramed(intro, Join(partials, Separator));
    Strip("\n" + head + Join(partials, Separator) + "\n")
  }

  function MapRequest(model: string, specialty: string, chunk: string, temperature: Temperature): Request
  {
    SystemUserRequest(model, MapSystem, MapUserPrompt(specialty, chunk), temperature, MapMaxTokens)
  }

  function ReduceRequest(model: string, specialty: string, partials: seq<string>, temperature: Temperature): Request
  {
    SystemUserRequest(model, ReduceSystem, ReduceUserPrompt(specialty, partials), temperature, ReduceMaxTokens)
  }

  /** One map request per chunk, in chunk order. */
  function MapRequests(model: string, specialty: string, chunks: seq<string>, temperature: Temperature): (r: seq<Request>)
    ensures |r| == |chunks|
    ensures forall i :: 0 <= i < |chunks| ==> r[i] == MapRequest(model, specialty, chunks[i], temperature)
  {
    seq(|chunks|, i requires 0 <= i < |chunks| => MapRequest(model, specialty, chunks[i], temperature))
  }

  // ------------------------------------------------------------- URL fetch

  /** What the fetcher gives back for one URL: a response to a successful
      (2xx) request, with its content-type header if any and its decoded body,
      or the message of the exception raised by the transport or by the status
      check. */
  datatype FetchOutcome = Responded(contentType: Option<string>, body: string) | Raised(message: string)

  type Fetcher = string -> FetchOutcome

  predicate IsTextual(contentType: string) {
    Contains(contentType, "text") || Contains(contentType, "json")
    || Contains(contentType, "xml") || Contains(contentType, "html")
  }

  function NonTextualPlaceholder(contentType: string): string {
    "[conteúdo não-textual: " + contentType + "]"
  }

  function FailureMarker(url: string, message: string): string {
    "[falha ao baixar " + url + "] " + message
  }

  /** The text of a fetched URL: the first `maxChars` characters of a textual
      body, a placeholder naming any other (lower-cased) content type, and the
      raised error otherwise. */
  function FetchUrlText(response: FetchOutcome, maxChars: nat): (r: Result<string, string>)
    ensures response.Raised? ==> r == Err(response.message)
    ensures response.Responded? ==> r.Ok?
    ensures response.Responded? && IsTextual(Lower(response.contentType.GetOr(""))) ==>
      r.value <= response.body && |r.value| == if |response.body| <= maxChars then |response.body| else maxChars
    ensures response.Responded? && !IsTextual(Lower(response.contentType.GetOr(""))) ==>
      r.value == NonTextualPlaceholder(Lower(response.contentType.GetOr("")))
  {
    match response
    case Raised(e) => Err(e)
    case Responded(header, body) =>
      var ct := Lower(header.GetOr(""));
      if !IsTextual(ct) then Ok(NonTextualPlaceholder(ct)) else Ok(Take(body, maxChars))
  }

  /** The text each of the first ten URLs contributes, in input order. */
  function UrlTexts(urls: seq<string>, fetch: Fetcher): (r: seq<string>)
    ensures |r| == |Take(urls, UrlLimit)|
    ensures forall i :: 0 <= i < |r| ==> r[i] == ResolveUrl(urls[i], fetch)
  {
    var n := |Take(urls, UrlLimit)|;
    seq(n, i requires 0 <= i < n => ResolveUrl(urls[i], fetch))
  }

  /** One URL's contribution: its fetched text, or, when the fetch raises, the
      failure marker naming the URL and the error, so that nothing aborts. */
  function ResolveUrl(url: string, fetch: Fetcher): (r: string)
    ensures fetch(url).Raised? ==> r == FailureMarker(url, fetch(url).message)
    ensures fetch(url).Responded? ==> r == FetchUrlText(fetch(url), FetchMaxChars).value
  {
    match FetchUrlText(fetch(url), FetchMaxChars)
    case Ok(t) => t
    case Err(e) => FailureMarker(url, e)
  }

  // ---------------------------------------------------------------- corpus

  /** The segment a text contributes: nothing when it is blank, otherwise the
      tag followed by the stripped, truncated text. */
  function SegmentOf(tag: string, text: string): seq<string>
  {
    var t := EnforceMaxChars(Some(text), SegmentMaxChars);
    if Strip(t) != [] then [tag + Strip(t)] else []
  }

  /** The segments of some texts, in order, for any way of cutting one
      text into segments. */
  function Collect(seg: string -> seq<string>, texts: seq<string>): seq<string>
  {
    if texts == [] then []
    else Collect(seg, texts[..|texts| - 1]) + seg(texts[|texts| - 1])
  }

  lemma {:induction false} CollectAppend(seg: string -> seq<string>, a: seq<string>, b: seq<string>)
    ensures Collect(seg, a + b) == Collect(seg, a) + Collect(seg, b)
  {
    if b == [] {
      assert a + b == a;
    } else {
      assert (a + b)[..|a + b| - 1] == a + b[..|b| - 1];
      CollectAppend(seg, a, b[..|b| - 1]);
    }
  }

  lemma CollectStep(seg: string -> seq<string>, texts: seq<string>, i: nat)
    requires i < |texts|
    ensures Collect(seg, texts[..i + 1]) == Collect(seg, texts[..i]) + seg(texts[i])
  {
    assert texts[..i + 1][..i] == texts[..i] && texts[..i + 1][i] == texts[i];
  }

  /** The segments of the texts under one tag, in order. */
  function Segments(tag: string, texts: seq<string>): seq<string>
  {
    Collect(t => SegmentOf(tag, t), texts)
  }

  /** A blank text contributes no segment; any other text contributes exactly
      one, holding a stripped prefix of the text of at most 120000 characters. */
  lemma SegmentOfCases(tag: string, text: string)
    ensures Blank(text) ==> SegmentOf(tag, text) == []
    ensures !Blank(text) ==>
      && |SegmentOf(tag, text)| == 1
      && SegmentOf(tag, text)[0] == tag + Strip(EnforceMaxChars(Some(text), SegmentMaxChars))
      && Strip(EnforceMaxChars(Some(text), SegmentMaxChars)) <= Strip(text)
      && |Strip(EnforceMaxChars(Some(text), SegmentMaxChars))| <= SegmentMaxChars
  {
    EnforceNonBlank(text, SegmentMaxChars);
  }

  /** Segments keep input order: those of a concatenation are the segments of
      the first part followed by those of the second, and one more text adds
      its own segment at the end. */
  lemma SegmentsAppend(tag: string, a: seq<string>, b: seq<string>, x: string)
    ensures Segments(tag, a + b) == Segments(tag, a) + Segments(tag, b)
    ensures Segments(tag, a + [x]) == Segments(tag, a) + SegmentOf(tag, x)
  {
    CollectAppend(t => SegmentOf(tag, t), a, b);
    CollectAppend(t => SegmentOf(tag, t), a, [x]);
    assert [x][..0] == [];
  }

  /** Prompt first, then the document segments, then the URL segments. */
  function Parts(prompt: string, docs: seq<string>, urlTexts: seq<string>): seq<string>
  {
    [prompt] + Segments(DocTag, docs) + Segments(UrlTag, urlTexts)
  }

  function Corpus(specialty: string, docs: seq<string>, urlTexts: seq<string>): string
  {
    Join(Parts(BuildMatrixPrompt(specialty), docs, urlTexts), Separator)
  }

  /** The corpus always starts with the prompt, so it is never blank. */
  lemma CorpusStartsWithPrompt(specialty: string, docs: seq<string>, urlTexts: seq<string>)
    ensures BuildMatrixPrompt(specialty) <= Corpus(specialty, docs, urlTexts)
    ensures Corpus(specialty, docs, urlTexts) != [] && !IsSpace(Corpus(specialty, docs, urlTexts)[0])
  {
    JoinStartsWithFirst(Parts(BuildMatrixPrompt(specialty), docs, urlTexts), Separator);
  }

  // -------------------------------------------------------------- chunking

  /** Consecutive, non-overlapping pieces of `s` of `m` characters, the last
      one possibly shorter. */
  function Chunks(s: string, m: nat): (r: seq<string>)
    requires m > 0
    ensures Concat(r) == s
    ensures r == [] <==> s == []
    ensures forall i :: 0 <= i < |r| ==> 0 < |r[i]| <= m
    ensures forall i :: 0 <= i < |r| - 1 ==> |r[i]| == m
    decreases |s|
  {
    if s == [] then []
    else if |s| <= m then [s]
    else
      var rest := Chunks(s[m..], m);
      assert s == s[..m] + s[m..];
      [s[..m]] + rest
  }

  /** There are ceil(|s| / m) chunks: the fewest pieces of `m` characters
      that cover `s`. */
  lemma {:induction false} ChunkCount(s: string, m: nat)
    requires m > 0
    ensures Times(|Chunks(s, m)|, m) >= |s|
    ensures s != [] ==> Times(|Chunks(s, m)| - 1, m) < |s|
    decreases |s|
  {
    if |s| > m {
      var n := |Chunks(s[m..], m)|;
      ChunkCount(s[m..], m);
      assert |Chunks(s, m)| == n + 1;
      assert Times(n + 1, m) == m + Times(n, m);
      if s[m..] != [] {
        assert Times(n, m) == m + Times(n - 1, m);
      }
    } else if s != [] {
      assert |Chunks(s, m)| == 1;
      assert Times(1, m) == m + Times(0, m);
    }
  }

  /** Python's `_chunk_text`: strip, then cut into pieces of `maxChars`. No
      chunk exists exactly when the text is blank, and the chunks spell out the
      stripped text, in order. */
  function ChunkText(text: string, maxChars: nat): (r: seq<string>)
    requires maxChars > 0
    ensures r == [] <==> Blank(text)
    ensures Concat(r) == Strip(text)
    ensures forall i :: 0 <= i < |r| ==> 0 < |r[i]| <= maxChars
    ensures forall i :: 0 <= i < |r| - 1 ==> |r[i]| == maxChars
  {
    Chunks(Strip(text), maxChars)
  }

  /** `k * m` as repeated addition: the number of characters `k` full chunks
      of `m` characters hold. Stating the chunk bounds with it keeps nonlinear
      arithmetic out of the proofs that use them. */
  function Times(k: nat, m: nat): nat
  {
    if k == 0 then 0 else m + Times(k - 1, m)
  }

  lemma {:induction false} TimesIsProduct(k: nat, m: nat)
    ensures Times(k, m) == k * m
  {
    if k > 0 {
      TimesIsProduct(k - 1, m);
    }
  }

  /** Keeping the first `k` chunks keeps exactly the first `k * m` characters. */
  lemma {:induction false} TakeChunks(s: string, m: nat, k: nat)
    requires m > 0
    ensures Concat(Take(Chunks(s, m), k)) == Take(s, Times(k, m))
  {
    if s == [] || k == 0 {
      assert Take(Chunks(s, m), k) == [];
    } else if |s| <= m {
      assert Chunks(s, m) == [s];
      assert Take(Chunks(s, m), k) == [s];
      assert Concat([s]) == s + Concat([]);
      assert Times(k, m) == m + Times(k - 1, m);
    } else {
      var rest := Chunks(s[m..], m);
      assert Chunks(s, m) == [s[..m]] + rest;
      var kept := Take(Chunks(s, m), k);
      assert kept == [s[..m]] + Take(rest, k - 1);
      assert kept[1..] == Take(rest, k - 1);
      assert Concat(kept) == s[..m] + Concat(Take(rest, k - 1));
      TakeChunks(s[m..], m, k - 1);
      assert Times(k, m) == m + Times(k - 1, m);
      assert Take(s, m + Times(k - 1, m)) == s[..m] + Take(s[m..], Times(k - 1, m));
    }
  }

  /** The chunks the pipeline keeps from a corpus. */
  function Retained(merged: string, b: Budgets): seq<string>
    requires b.chunkChars > 0
  {
    Take(ChunkText(Take(merged, b.maxTotalChars), b.chunkChars), b.maxPartials)
  }

  /** At most `maxPartials` chunks are kept, each non-empty and at most
      `chunkChars` long. */
  lemma RetainedChunks(merged: string, b: Budgets)
    requires b.chunkChars > 0
    ensures |Retained(merged, b)| <= b.maxPartials
    ensures forall i :: 0 <= i < |Retained(merged, b)| ==> 0 < |Retained(merged, b)[i]| <= b.chunkChars
  {
    var cs := Chunks(Strip(Take(merged, b.maxTotalChars)), b.chunkChars);
    var r := Retained(merged, b);
    assert r == Take(cs, b.maxPartials);
    forall i | 0 <= i < |r| ensures 0 < |r[i]| <= b.chunkChars {
      assert r[i] == cs[i];
    }
  }

  /** Together the kept chunks are exactly the first `maxPartials * chunkChars`
      characters of the stripped, truncated corpus: lossless and in order up to
      that bound. */
  lemma RetainedPrefix(merged: string, b: Budgets)
    requires b.chunkChars > 0
    ensures Concat(Retained(merged, b)) == Take(Strip(Take(merged, b.maxTotalChars)), Times(b.maxPartials, b.chunkChars))
  {
    var t := Strip(Take(merged, b.maxTotalChars));
    TakeChunks(t, b.chunkChars, b.maxPartials);
  }

  /** A corpus led by a non-space character loses no chunk to stripping: some
      chunk survives exactly when both the character and the chunk budgets
      are positive. */
  lemma RetainedEmptyIff(merged: string, b: Budgets)
    requires b.chunkChars > 0
    requires merged != [] && !IsSpace(merged[0])
    ensures Retained(merged, b) == [] <==> b.maxTotalChars == 0 || b.maxPartials == 0
  {
    var t := Take(merged, b.maxTotalChars);
    if b.maxTotalChars > 0 {
      assert t[0] == merged[0];
      StripFromNonSpace(t);
    }
  }

  // -------------------------------------------------------------- pipeline

  datatype SynthError = CorpusTooLarge | SynthesisFailed(message: string)

  /** Everything one synthesis does that can be observed: the URLs fetched,
      in order, the completion requests sent, in order, and the result. */
  datatype Synthesis = Synthesis(fetched: seq<string>, calls: seq<Request>, result: Result<string, SynthError>)

  /** The pipeline as a function of its inputs and of the two oracles: the
      corpus is assembled, then guarded, cut and summarised. */
  function Synthesize(service: Service, fetch: Fetcher, settings: Settings, specialty: string,
                      docs: seq<string>, urls: seq<string>, temperature: Temperature): Synthesis
    requires settings.chunkChars > 0
  {
    SynthesizeCorpus(service, settings, specialty, Take(urls, UrlLimit),
                     Corpus(specialty, docs, UrlTexts(urls, fetch)), temperature)
  }

  /** Everything `synthesize_matrix` does once the corpus `merged` is built
      (the URLs in `fetched` having been fetched to build it): the guard on the
      whole corpus, then truncation, chunking and summarising. */
  function SynthesizeCorpus(service: Service, settings: Settings, specialty: string,
                            fetched: seq<string>, merged: string, temperature: Temperature): (s: Synthesis)
    requires settings.chunkChars > 0
    ensures s.fetched == fetched
    ensures s.result == Err(CorpusTooLarge) <==> |merged| > 2 * settings.maxTotalChars
    ensures s.result == Err(CorpusTooLarge) ==> s.calls == []
  {
    if GuardPayloadSize(|merged|, settings.maxTotalChars).Fail? then
      Synthesis(fetched, [], Err(CorpusTooLarge))
    else
      Summarize(service, settings.synthModel, specialty, fetched, Retained(merged, GetBudgets(settings)), temperature)
  }

  /** The map and reduce phases over the retained chunks: the sentinel, with no
      call, when there is none; otherwise one call per chunk and, if they all
      succeed, one reduce call. Every failure here is a failed completion. */
  function Summarize(service: Service, model: string, specialty: string,
                     fetched: seq<string>, chunks: seq<string>, temperature: Temperature): (s: Synthesis)
    ensures s.fetched == fetched
    ensures s.result.Err? ==> s.result.error.SynthesisFailed?
    ensures s.calls == [] <==> chunks == []
    ensures chunks == [] ==> s.result == Ok(Sentinel)
    ensures |s.calls| <= |chunks| + 1
  {
    if chunks == [] then Synthesis(fetched, [], Ok(Sentinel))
    else
      var maps := MapRequests(model, specialty, chunks, temperature);
      var log := CallEach(service, maps);
      if log.outcome.Err? then
        Synthesis(fetched, log.calls, Err(SynthesisFailed(log.outcome.error)))
      else
        var reduce := ReduceRequest(model, specialty, log.outcome.value, temperature);
        assert |log.calls| == |chunks|;
        match service(reduce)
        case Ok(m) => Synthesis(fetched, log.calls + [reduce], Ok(m))
        case Err(e) => Synthesis(fetched, log.calls + [reduce], Err(SynthesisFailed(e)))
  }

  /** The URL loop of `synthesize_matrix`: the first ten URLs, in order, each
      resolved to its text or to its failure marker without aborting. */
  method ResolveUrls(urls: seq<string>, fetch: Fetcher) returns (urlsText: seq<string>)
    ensures urlsText == UrlTexts(urls, fetch)
  {
    var toFetch := Take(urls, UrlLimit);
    urlsText := [];
    for i := 0 to |toFetch|
      invariant |urlsText| == i
      invariant forall j :: 0 <= j < i ==> urlsText[j] == ResolveUrl(toFetch[j], fetch)
    {
      var text := FetchOrMark(toFetch[i], fetch);
      urlsText := urlsText + [text];
    }
    assert forall j :: 0 <= j < |toFetch| ==> toFetch[j] == urls[j];
  }

  /** One pass of the fetch loop, the `try`/`except` around the fetch: the
      URL's text, or its failure marker. The method form of `ResolveUrl`,
      kept apart to keep the loop's proof small. */
  method FetchOrMark(url: string, fetch: Fetcher) returns (text: string)
    ensures text == ResolveUrl(url, fetch)
  {
    var fetched := FetchUrlText(fetch(url), FetchMaxChars);
    if fetched.Err? {
      text := FailureMarker(url, fetched.error);
    } else {
      text := fetched.value;
    }
  }

  /** One of the two segment loops of `synthesize_matrix`: the tagged segment
      of every non-blank text, in order. */
  method TaggedSegments(tag: string, texts: seq<string>) returns (segs: seq<string>)
    ensures segs == Segments(tag, texts)
  {
    segs := [];
    var i := 0;
    while i < |texts|
      invariant 0 <= i <= |texts|
      invariant segs == Segments(tag, texts[..i])
    {
      CollectStep(t => SegmentOf(tag, t), texts, i);
      var seg := SegmentFor(tag, texts[i]);
      segs := segs + seg;
      i := i + 1;
    }
    assert texts[..i] == texts;
  }

  /** The body of a segment loop: the tagged, stripped, truncated text, when
      it is not blank. The method form of `SegmentOf`, on which the segment
      properties are proved; kept apart to keep each proof small. */
  method SegmentFor(tag: string, text: string) returns (seg: seq<string>)
    ensures seg == SegmentOf(tag, text)
  {
    var t := EnforceMaxChars(Some(text), SegmentMaxChars);
    seg := [];
    if Strip(t) != [] {
      seg := [tag + Strip(t)];
    }
  }

  /** `synthesize_matrix`, step by step as the source does it. */
  method SynthesizeMatrix(service: Service, fetch: Fetcher, settings: Settings, specialty: string,
                          docs: seq<string>, urls: seq<string>, temperature: Temperature) returns (s: Synthesis)
    requires settings.chunkChars > 0
    ensures s == Synthesize(service, fetch, settings, specialty, docs, urls, temperature)
  {
    var toFetch := Take(urls, UrlLimit);
    var urlsText := ResolveUrls(urls, fetch);
    var merged := AssembleCorpus(specialty, docs, urlsText);
    s := GuardAndSummarize(service, settings, specialty, toFetch, merged, temperature);
  }

  /** The rest of `synthesize_matrix` once the corpus is built: the guard on
      the whole corpus, then truncation, chunking and summarising. The method
      form of `SynthesizeCorpus`, on which the guard and sentinel properties
      are proved; kept apart to keep each proof small. */
  method GuardAndSummarize(service: Service, settings: Settings, specialty: string,
                           fetched: seq<string>, merged: string, temperature: Temperature) returns (s: Synthesis)
    requires settings.chunkChars > 0
    ensures s == SynthesizeCorpus(service, settings, specialty, fetched, merged, temperature)
  {
    var budgets := GetBudgets(settings);
    if GuardPayloadSize(|merged|, settings.maxTotalChars).Fail? {
      return Synthesis(fetched, [], Err(CorpusTooLarge));
    }
    var cut := Take(merged, budgets.maxTotalChars);
    var chunks := Take(ChunkText(cut, budgets.chunkChars), budgets.maxPartials);
    assert chunks == Retained(merged, budgets);
    s := SummarizeChunks(service, settings.synthModel, specialty, fetched, chunks, temperature);
  }

  /** The corpus loop: the prompt, then the document segments, then the URL
      segments, joined by the separator. */
  method AssembleCorpus(specialty: string, docs: seq<string>, urlsText: seq<string>) returns (merged: string)
    ensures merged == Corpus(specialty, docs, urlsText)
  {
    var parts := [BuildMatrixPrompt(specialty)];
    var docSegments := TaggedSegments(DocTag, docs);
    parts := parts + docSegments;
    var urlSegments := TaggedSegments(UrlTag, urlsText);
    parts := parts + urlSegments;
    merged := Join(parts, Separator);
  }

  /** The map and reduce calls of `synthesize_matrix` over the kept chunks.
      The method form of `Summarize`, on which the call properties are
      proved; kept apart to keep each proof small. */
  method SummarizeChunks(service: Service, model: string, specialty: string,
                         fetched: seq<string>, chunks: seq<string>, temperature: Temperature) returns (s: Synthesis)
    ensures s == Summarize(service, model, specialty, fetched, chunks, temperature)
  {
    if chunks == [] {
      return Synthesis(fetched, [], Ok(Sentinel));
    }
    // The list comprehension of map calls, each one in chunk order.
    var log := CallEach(service, MapRequests(model, specialty, chunks, temperature));
    if log.outcome.Err? {
      return Synthesis(fetched, log.calls, Err(SynthesisFailed(log.outcome.error)));
    }
    var reduce := ReduceRequest(model, specialty, log.outcome.value, temperature);
    match service(reduce) {
      case Ok(m) => s := Synthesis(fetched, log.calls + [reduce], Ok(m));
      case Err(e) => s := Synthesis(fetched, log.calls + [reduce], Err(SynthesisFailed(e)));
    }
  }

  // --------------------------------------------------- pipeline properties

  /** The sentinel: when the guard passes, no completion call is made exactly
      when `max_partials` is zero, and then the sentinel is the result. This
      holds for any corpus led by a non-space character, which every corpus is
      (`CorpusStartsWithPrompt`): documents and URLs have nothing to do with
      it, since the prompt alone always yields a chunk. A zero
      `max_total_chars` never gets past the guard (`ZeroBudgetRefused`). */
  lemma SentinelIff(service: Service, settings: Settings, specialty: string,
                    fetched: seq<string>, merged: string, temperature: Temperature)
    requires settings.chunkChars > 0
    requires merged != [] && !IsSpace(merged[0])
    requires |merged| <= 2 * settings.maxTotalChars
    ensures var s := SynthesizeCorpus(service, settings, specialty, fetched, merged, temperature);
      && (s.calls == [] <==> settings.maxPartials == 0)
      && (s.calls == [] ==> s.result == Ok(Sentinel))
  {
    RetainedEmptyIff(merged, GetBudgets(settings));
  }

  /** The same for every corpus the pipeline can build, whatever documents
      and URL texts it holds, none included: only a zero `max_partials` leads
      to the sentinel. */
  lemma PipelineSentinelIff(service: Service, settings: Settings, specialty: string, fetched: seq<string>,
                            docs: seq<string>, urlTexts: seq<string>, temperature: Temperature)
    requires settings.chunkChars > 0
    requires |Corpus(specialty, docs, urlTexts)| <= 2 * settings.maxTotalChars
    ensures var s := SynthesizeCorpus(service, settings, specialty, fetched, Corpus(specialty, docs, urlTexts), temperature);
      && (s.calls == [] <==> settings.maxPartials == 0)
      && (s.calls == [] ==> s.result == Ok(Sentinel))
  {
    CorpusStartsWithPrompt(specialty, docs, urlTexts);
    SentinelIff(service, settings, specialty, fetched, Corpus(specialty, docs, urlTexts), temperature);
  }

  /** A zero `max_total_chars` refuses every corpus the pipeline can build, and
      no completion call is made: the guard runs on the untruncated corpus,
      which always holds the prompt. */
  lemma ZeroBudgetRefused(service: Service, settings: Settings, specialty: string, fetched: seq<string>,
                          docs: seq<string>, urlTexts: seq<string>, temperature: Temperature)
    requires settings.chunkChars > 0 && settings.maxTotalChars == 0
    ensures var s := SynthesizeCorpus(service, settings, specialty, fetched, Corpus(specialty, docs, urlTexts), temperature);
      s.result == Err(CorpusTooLarge) && s.calls == []
  {
    CorpusStartsWithPrompt(specialty, docs, urlTexts);
  }

  /** When every call succeeds: one map call per retained chunk, in chunk order,
      then exactly one reduce call over the replies, in the same order; the
      reduce reply is the result. */
  lemma CallSequence(service: Service, model: string, specialty: string,
                     fetched: seq<string>, chunks: seq<string>, temperature: Temperature)
    requires chunks != []
    requires forall i :: 0 <= i < |chunks| ==> service(MapRequest(model, specialty, chunks[i], temperature)).Ok?
    ensures var s := Summarize(service, model, specialty, fetched, chunks, temperature);
      var maps := MapRequests(model, specialty, chunks, temperature);
      var partials := CallEach(service, maps).outcome.value;
      var reduce := ReduceRequest(model, specialty, partials, temperature);
      && |partials| == |chunks|
      && (forall i :: 0 <= i < |chunks| ==> service(maps[i]) == Ok(partials[i]))
      && s.calls == maps + [reduce]
      && (service(reduce).Ok? ==> s.result == Ok(service(reduce).value))
      && (service(reduce).Err? ==> s.result == Err(SynthesisFailed(service(reduce).error)))
  {
    var maps := MapRequests(model, specialty, chunks, temperature);
    assert forall i :: 0 <= i < |maps| ==> service(maps[i]).Ok?;
  }

  /** A failing map call ends the run: the calls made are the map requests up
      to and including the failed one, no reduce call follows, and the failure
      is the result. */
  lemma MapFailureStops(service: Service, model: string, specialty: string,
                        fetched: seq<string>, chunks: seq<string>, temperature: Temperature, k: nat)
    requires k < |chunks|
    requires service(MapRequest(model, specialty, chunks[k], temperature)).Err?
    requires forall i :: 0 <= i < k ==> service(MapRequest(model, specialty, chunks[i], temperature)).Ok?
    ensures var s := Summarize(service, model, specialty, fetched, chunks, temperature);
      var failed := MapRequest(model, specialty, chunks[k], temperature);
      && s.calls == MapRequests(model, specialty, chunks, temperature)[..k + 1]
      && s.result == Err(SynthesisFailed(service(failed).error))
  {
    CallEachFailsAt(service, MapRequests(model, specialty, chunks, temperature), k);
  }

  /** However the run goes, it makes at most one call per kept chunk plus one. */
  lemma CallBound(service: Service, settings: Settings, specialty: string,
                  fetched: seq<string>, merged: string, temperature: Temperature)
    requires settings.chunkChars > 0
    ensures |SynthesizeCorpus(service, settings, specialty, fetched, merged, temperature).calls| <= settings.maxPartials + 1
  {
    RetainedChunks(merged, GetBudgets(settings));
  }
}
