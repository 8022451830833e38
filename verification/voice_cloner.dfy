/**
 The lazy engine lifecycle of the voice cloner. Each engine handle is a
 small state machine; the engines' behaviour on one call (does the model
 load, does generation succeed) is an input.
 */
module VoiceCloner {
  import opened Basics

  /** `self.model`: `None`, a loaded Chatterbox model, or the `"FAILED"` sentinel. */
  datatype Chatterbox = ChatterboxUnloaded | ChatterboxReady | ChatterboxFailed

  /** `self.coqui_model`: `None` or a loaded XTTS model. */
  datatype Coqui = CoquiUnloaded | CoquiReady

  datatype Cloner = Cloner(chatterbox: Chatterbox, coqui: Coqui)

  /** A fresh cloner: nothing is loaded until first use. */
  const Fresh := Cloner(ChatterboxUnloaded, CoquiUnloaded)

  datatype CoquiLoad = CoquiLoads | CoquiImportFails | CoquiLoadRaises(message: string)

  /** How the engines behave on one call. */
  datatype Engines = Engines(chatterboxLoads: bool, chatterboxSpeaks: bool,
                             coquiLoad: CoquiLoad, coquiFailure: Option<string>)

  datatype Engine = ChatterboxEngine | CoquiEngine(language: string)

  datatype Speech = Speech(path: string, engine: Engine)

  datatype SpeechError = ReferenceMissing(path: string) | CoquiNotInstalled | CoquiFailed(message: string)

  /** The handles after a call, and what the call returned or raised. */
  datatype Call = Call(cloner: Cloner, result: Result<Speech, SpeechError>)

  /** Chatterbox is loaded on the first English request; a failed load
      leaves the sentinel and is never retried. */
  function LoadChatterbox(h: Chatterbox, e: Engines): (r: Chatterbox)
    ensures h != ChatterboxUnloaded ==> r == h
    ensures r != ChatterboxUnloaded
    ensures h == ChatterboxUnloaded ==> (r == ChatterboxReady <==> e.chatterboxLoads)
  {
    if h == ChatterboxUnloaded then (if e.chatterboxLoads then ChatterboxReady else ChatterboxFailed) else h
  }

  /** The Coqui section: load the handle once (a failed load leaves it
      unloaded) and generate in the given language; every failure
      propagates. */
  function RunCoqui(h: Coqui, language: string, outputPath: string, e: Engines): (r: (Coqui, Result<Speech, SpeechError>))
    ensures h.CoquiReady? ==> r.0.CoquiReady?
    ensures r.0.CoquiReady? <==> h.CoquiReady? || e.coquiLoad.CoquiLoads?
    ensures r.1.Ok? <==> r.0.CoquiReady? && e.coquiFailure.None?
    ensures r.1.Ok? ==> r.1.value == Speech(outputPath, CoquiEngine(language))
    ensures r.1 == Err(CoquiNotInstalled) <==> h.CoquiUnloaded? && e.coquiLoad.CoquiImportFails?
  {
    if h.CoquiUnloaded? && !e.coquiLoad.CoquiLoads? then
      match e.coquiLoad
      case CoquiImportFails => (h, Err(CoquiNotInstalled))
      case CoquiLoadRaises(m) => (h, Err(CoquiFailed(m)))
    else
      match e.coquiFailure
      case Some(m) => (CoquiReady, Err(CoquiFailed(m)))
      case None => (CoquiReady, Ok(Speech(outputPath, CoquiEngine(language))))
  }

  /** `generate_speech(text, reference_audio_path, language, output_path)`. */
  function GenerateSpeech(c: Cloner, refPath: string, refExists: bool, language: string,
                          outputPath: string, e: Engines): (r: Call)
    ensures !refExists ==> r == Call(c, Err(ReferenceMissing(refPath)))
    ensures language != "en" ==> r.cloner.chatterbox == c.chatterbox
    ensures r.result.Ok? ==> r.result.value.path == outputPath
    ensures r.result.Ok? && r.result.value.engine.CoquiEngine? ==> r.result.value.engine.language == language
    ensures r.result == Ok(Speech(outputPath, ChatterboxEngine)) <==>
              refExists && language == "en" && r.cloner.chatterbox == ChatterboxReady && e.chatterboxSpeaks
    ensures r.result == Ok(Speech(outputPath, ChatterboxEngine)) ==> r.cloner.coqui == c.coqui
    ensures refExists && language == "en" ==> r.cloner.chatterbox == LoadChatterbox(c.chatterbox, e)
    ensures refExists && !(language == "en" && r.cloner.chatterbox == ChatterboxReady && e.chatterboxSpeaks) ==>
              (r.cloner.coqui, r.result) == RunCoqui(c.coqui, language, outputPath, e)
  {
    if !refExists then Call(c, Err(ReferenceMissing(refPath)))
    else
      var chatterbox := if language == "en" then LoadChatterbox(c.chatterbox, e) else c.chatterbox;
      if language == "en" && chatterbox == ChatterboxReady && e.chatterboxSpeaks then
        Call(Cloner(chatterbox, c.coqui), Ok(Speech(outputPath, ChatterboxEngine)))
      else
        var (coqui, result) := RunCoqui(c.coqui, language, outputPath, e);
        Call(Cloner(chatterbox, coqui), result)
  }

  /** The handles only move forward: Chatterbox from unloaded to loaded or
      failed, Coqui from unloaded to loaded. */
  lemma HandlesOnlyAdvance(c: Cloner, refPath: string, refExists: bool, language: string, outputPath: string, e: Engines)
    ensures var r := GenerateSpeech(c, refPath, refExists, language, outputPath, e).cloner;
            && (c.chatterbox != ChatterboxUnloaded ==> r.chatterbox == c.chatterbox)
            && (c.coqui == CoquiReady ==> r.coqui == CoquiReady)
  {
  }

  /** One call of a sequence, with the engines' behaviour on that call. */
  datatype Request = Request(refPath: string, refExists: bool, language: string, outputPath: string, engines: Engines)

  function Step(c: Cloner, q: Request): Call {
    GenerateSpeech(c, q.refPath, q.refExists, q.language, q.outputPath, q.engines)
  }

  /** The call loads Chatterbox (`from_pretrained` is invoked). */
  predicate LoadsChatterbox(c: Cloner, q: Request) {
    q.refExists && q.language == "en" && c.chatterbox == ChatterboxUnloaded
  }

  function Final(c: Cloner, qs: seq<Request>): Cloner
    decreases |qs|
  {
    if qs == [] then c else Final(Step(c, qs[0]).cloner, qs[1..])
  }

  /** How many calls of the sequence load Chatterbox. */
  function LoadCount(c: Cloner, qs: seq<Request>): nat
    decreases |qs|
  {
    if qs == [] then 0
    else (if LoadsChatterbox(c, qs[0]) then 1 else 0) + LoadCount(Step(c, qs[0]).cloner, qs[1..])
  }

  /** Which engine each call of the sequence spoke with, if any. */
  function Results(c: Cloner, qs: seq<Request>): (r: seq<Result<Speech, SpeechError>>)
    ensures |r| == |qs|
    decreases |qs|
  {
    if qs == [] then [] else [Step(c, qs[0]).result] + Results(Step(c, qs[0]).cloner, qs[1..])
  }

  /** Over any sequence of calls Chatterbox is loaded at most once, and
      never once its handle is set. */
  lemma {:induction false} ChatterboxLoadedAtMostOnce(c: Cloner, qs: seq<Request>)
    ensures LoadCount(c, qs) <= (if c.chatterbox == ChatterboxUnloaded then 1 else 0)
    decreases |qs|
  {
    if qs != [] {
      var next := Step(c, qs[0]).cloner;
      ChatterboxLoadedAtMostOnce(next, qs[1..]);
      if LoadsChatterbox(c, qs[0]) {
        assert next.chatterbox != ChatterboxUnloaded;
      }
    }
  }

  /** Once Chatterbox has failed to load, it stays failed and no later call
      is answered by it. */
  lemma {:induction false} FailedIsPermanent(c: Cloner, qs: seq<Request>)
    requires c.chatterbox == ChatterboxFailed
    ensures Final(c, qs).chatterbox == ChatterboxFailed
    ensures forall k :: 0 <= k < |qs| && Results(c, qs)[k].Ok? ==> Results(c, qs)[k].value.engine.CoquiEngine?
    decreases |qs|
  {
    if qs != [] {
      var next := Step(c, qs[0]).cloner;
      FailedIsPermanent(next, qs[1..]);
      assert Results(c, qs) == [Step(c, qs[0]).result] + Results(next, qs[1..]);
    }
  }

  /** A first English call with a failing Chatterbox load is answered by
      Coqui in English, and the next English call does not try Chatterbox
      again. */
  lemma FallbackScenario(e: Engines)
    requires !e.chatterboxLoads && e.coquiLoad.CoquiLoads? && e.coquiFailure.None?
    ensures var first := GenerateSpeech(Fresh, "ref.wav", true, "en", "a.wav", e);
            && first == Call(Cloner(ChatterboxFailed, CoquiReady), Ok(Speech("a.wav", CoquiEngine("en"))))
            && !LoadsChatterbox(first.cloner, Request("ref.wav", true, "en", "b.wav", e))
  {
  }
}
