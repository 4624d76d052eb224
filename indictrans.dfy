/**
 * The language-code routing and model-loading state of the IndicTrans2
 * translation service.
 *
 * `translate` resolves the client's short language codes to IndicTrans2 tags,
 * rejects unsupported codes, and picks one of three checkpoints by direction.
 * Models, tokenizers and the pre/post-processor are loaded lazily into slots
 * that go from empty to loaded once. Language detection and the neural
 * inference itself enter as oracle functions.
 */
module IndicTrans {
  import opened Wrappers

  const CKPT_EN_INDIC := "ai4bharat/indictrans2-en-indic-dist-200M"
  const CKPT_INDIC_EN := "ai4bharat/indictrans2-indic-en-dist-200M"
  const CKPT_INDIC_INDIC := "ai4bharat/indictrans2-indic-indic-dist-320M"

  const ENGLISH_TAG := "eng_Latn"

  /** Client short codes to IndicTrans2 tags ("ma" is Malayalam, "be" Bengali in the client). */
  const CODE_TO_TAG: map<string, string> := map[
    "en" := "eng_Latn",
    "hi" := "hin_Deva",
    "ka" := "kan_Knda",
    "ta" := "tam_Taml",
    "te" := "tel_Telu",
    "ma" := "mal_Mlym",
    "be" := "ben_Beng"]

  /** Language-detector codes to client short codes; several Indic languages fall back to Hindi. */
  const LANGDETECT_TO_SHORT: map<string, string> := map[
    "en" := "en",
    "hi" := "hi",
    "bn" := "be",
    "ta" := "ta",
    "te" := "te",
    "ml" := "ma",
    "kn" := "ka",
    "mr" := "hi",
    "gu" := "hi",
    "pa" := "hi",
    "or" := "hi",
    "sa" := "hi"]

  /** The supported codes as the error message lists them: `sorted(CODE_TO_TAG.keys())`. */
  const SUPPORTED_CODES: seq<string> := ["be", "en", "hi", "ka", "ma", "ta", "te"]

  // ---------------------------------------------------------------------
  // Code resolution
  // ---------------------------------------------------------------------

  function ShortToTag(code: string): (r: Option<string>)
    ensures r.Some? <==> code in SUPPORTED_CODES
    ensures r.Some? ==> r.value == CODE_TO_TAG[code]
    ensures r == Some(ENGLISH_TAG) <==> code == "en"
  {
    if code in CODE_TO_TAG then Some(CODE_TO_TAG[code]) else None
  }

  /** Every code the detector table produces is a supported code. */
  lemma DetectorCodesSupported()
    ensures forall d :: d in LANGDETECT_TO_SHORT ==> LANGDETECT_TO_SHORT[d] in CODE_TO_TAG
  {
  }

  /**
   * The source code for `"auto"`: the detector's language through the table,
   * "en" for a language not in it, and "en" when the detector raises or is
   * not installed (`detected` is None).
   */
  function AutoDetectShort(detected: Option<string>): (r: string)
    ensures r in CODE_TO_TAG
    ensures detected.Some? && detected.value in LANGDETECT_TO_SHORT ==> r == LANGDETECT_TO_SHORT[detected.value]
    ensures detected.None? || detected.value !in LANGDETECT_TO_SHORT ==> r == "en"
  {
    DetectorCodesSupported();
    if detected.Some? && detected.value in LANGDETECT_TO_SHORT then LANGDETECT_TO_SHORT[detected.value] else "en"
  }

  /** Python's `str.isspace` characters, which `str.strip()` removes. */
  const WHITESPACE: set<char> := {
    '\t', '\n', '\U{000B}', '\U{000C}', '\r',
    '\U{001C}', '\U{001D}', '\U{001E}', '\U{001F}', ' ',
    '\U{0085}', '\U{00A0}', '\U{1680}',
    '\U{2000}', '\U{2001}', '\U{2002}', '\U{2003}', '\U{2004}', '\U{2005}',
    '\U{2006}', '\U{2007}', '\U{2008}', '\U{2009}', '\U{200A}',
    '\U{2028}', '\U{2029}', '\U{202F}', '\U{205F}', '\U{3000}'}

  predicate IsSpace(c: char)
  {
    c in WHITESPACE
  }

  /** The number of whitespace characters `strip()` removes from the front. */
  function LeadingSpaces(s: string): (k: nat)
    ensures k <= |s|
    ensures forall i :: 0 <= i < k ==> IsSpace(s[i])
    ensures k < |s| ==> !IsSpace(s[k])
    decreases |s|
  {
    if |s| > 0 && IsSpace(s[0]) then 1 + LeadingSpaces(s[1..]) else 0
  }

  /** The number of whitespace characters `strip()` removes from the back. */
  function TrailingSpaces(s: string): (k: nat)
    ensures k <= |s|
    ensures forall i :: |s| - k <= i < |s| ==> IsSpace(s[i])
    ensures k < |s| ==> !IsSpace(s[|s| - 1 - k])
    decreases |s|
  {
    if |s| > 0 && IsSpace(s[|s| - 1]) then 1 + TrailingSpaces(s[..|s| - 1]) else 0
  }

  /** `str.strip()` with no arguments. */
  function Strip(s: string): (r: string)
    ensures r == [] || (!IsSpace(r[0]) && !IsSpace(r[|r| - 1]))
  {
    var front := LeadingSpaces(s);
    var rest := s[front..];
    rest[..|rest| - TrailingSpaces(rest)]
  }

  /** `not text or not text.strip()` */
  predicate IsBlank(text: string)
  {
    text == "" || Strip(text) == ""
  }

  lemma BlankIffAllSpace(text: string)
    ensures IsBlank(text) <==> forall i :: 0 <= i < |text| ==> IsSpace(text[i])
  {
  }

  // ---------------------------------------------------------------------
  // Routing
  // ---------------------------------------------------------------------

  /** Which of the three checkpoints serves a request. */
  datatype Direction = EnToIndic | IndicToEn | IndicToIndic

  function SelectDirection(srcTag: string, tgtTag: string): (d: Direction)
    ensures d == EnToIndic <==> srcTag == ENGLISH_TAG && tgtTag != ENGLISH_TAG
    ensures d == IndicToEn <==> srcTag != ENGLISH_TAG && tgtTag == ENGLISH_TAG
    ensures d == IndicToIndic <==> (srcTag == ENGLISH_TAG <==> tgtTag == ENGLISH_TAG)
  {
    var srcIsEn := srcTag == ENGLISH_TAG;
    var tgtIsEn := tgtTag == ENGLISH_TAG;
    if srcIsEn && !tgtIsEn then EnToIndic
    else if !srcIsEn && tgtIsEn then IndicToEn
    else IndicToIndic
  }

  /** The ValueErrors `translate` raises. */
  datatype TranslateError =
    | Unsupported(src: string, tgt: string, supported: seq<string>)
    | InferenceFailed

  /** What `translate` decides before any model runs. */
  datatype Plan =
    | ShortCircuit
    | Route(srcTag: string, tgtTag: string, direction: Direction)

  /** The source code after `"auto"` is resolved; the detector sees the text. */
  function ResolveSource(text: string, srcShort: string, detect: string -> Option<string>): string
  {
    if srcShort == "auto" then AutoDetectShort(detect(text)) else srcShort
  }

  function PlanTranslation(text: string, srcShort: string, tgtShort: string, detect: string -> Option<string>)
    : (r: Result<Plan, TranslateError>)
    ensures r == Success(ShortCircuit) <==> IsBlank(text)
    ensures !IsBlank(text) ==>
      (r.Failure? <==> ResolveSource(text, srcShort, detect) !in CODE_TO_TAG || tgtShort !in CODE_TO_TAG)
    ensures r.Failure? ==>
      r.error == Unsupported(ResolveSource(text, srcShort, detect), tgtShort, SUPPORTED_CODES)
    ensures r.Success? && r.value.Route? ==>
      && !IsBlank(text)
      && r.value.srcTag == CODE_TO_TAG[ResolveSource(text, srcShort, detect)]
      && r.value.tgtTag == CODE_TO_TAG[tgtShort]
      && r.value.direction == SelectDirection(r.value.srcTag, r.value.tgtTag)
  {
    if IsBlank(text) then Success(ShortCircuit)
    else
      var src := ResolveSource(text, srcShort, detect);
      var srcTag := ShortToTag(src);
      var tgtTag := ShortToTag(tgtShort);
      if srcTag.None? || tgtTag.None? then Failure(Unsupported(src, tgtShort, SUPPORTED_CODES))
      else Success(Route(srcTag.value, tgtTag.value, SelectDirection(srcTag.value, tgtTag.value)))
  }

  /** With an `"auto"` source, only the target code can be unsupported. */
  lemma AutoSourceFailsOnlyOnTarget(text: string, tgtShort: string, detect: string -> Option<string>)
    requires !IsBlank(text)
    ensures PlanTranslation(text, "auto", tgtShort, detect).Failure? <==> tgtShort !in CODE_TO_TAG
  {
  }

  /** Direction in terms of the resolved short codes. */
  lemma DirectionByCode(src: string, tgt: string)
    requires src in CODE_TO_TAG && tgt in CODE_TO_TAG
    ensures SelectDirection(CODE_TO_TAG[src], CODE_TO_TAG[tgt]) == EnToIndic <==> src == "en" && tgt != "en"
    ensures SelectDirection(CODE_TO_TAG[src], CODE_TO_TAG[tgt]) == IndicToEn <==> src != "en" && tgt == "en"
    ensures SelectDirection(CODE_TO_TAG[src], CODE_TO_TAG[tgt]) == IndicToIndic <==> (src == "en" <==> tgt == "en")
  {
  }

  /** Code-point order on strings, as Python's `sorted` uses it. */
  predicate StrBelow(a: string, b: string)
  {
    (|a| > 0 && |b| > 0 && (a[0] < b[0] || (a[0] == b[0] && StrBelow(a[1..], b[1..]))))
    || (|a| == 0 && |b| > 0)
  }

  /** The error message's list is the supported codes, each once, in sorted order. */
  lemma SupportedCodesAreSortedKeys()
    ensures forall c :: c in SUPPORTED_CODES <==> c in CODE_TO_TAG
    ensures forall i, j :: 0 <= i < j < |SUPPORTED_CODES| ==> StrBelow(SUPPORTED_CODES[i], SUPPORTED_CODES[j])
  {
  }

  // ---------------------------------------------------------------------
  // Loaded state
  // ---------------------------------------------------------------------

  /** Opaque handles for the loaded objects; a handle records what it was loaded from. */
  datatype Processor = Processor
  datatype Tokenizer = Tokenizer(checkpoint: string)
  datatype Seq2SeqModel = Seq2SeqModel(checkpoint: string)

  /** The seven lazily filled slots of the service. */
  datatype Slots = Slots(
    ip: Option<Processor>,
    tokEnIndic: Option<Tokenizer>, mdlEnIndic: Option<Seq2SeqModel>,
    tokIndicEn: Option<Tokenizer>, mdlIndicEn: Option<Seq2SeqModel>,
    tokIndicIndic: Option<Tokenizer>, mdlIndicIndic: Option<Seq2SeqModel>)

  const NOTHING_LOADED := Slots(None, None, None, None, None, None, None)

  /** A slot, once filled, is never changed or emptied again. */
  predicate Extends<T(==)>(before: Option<T>, after: Option<T>)
  {
    before.Some? ==> after == before
  }

  predicate SlotsExtend(a: Slots, b: Slots)
  {
    && Extends(a.ip, b.ip)
    && Extends(a.tokEnIndic, b.tokEnIndic) && Extends(a.mdlEnIndic, b.mdlEnIndic)
    && Extends(a.tokIndicEn, b.tokIndicEn) && Extends(a.mdlIndicEn, b.mdlIndicEn)
    && Extends(a.tokIndicIndic, b.tokIndicIndic) && Extends(a.mdlIndicIndic, b.mdlIndicIndic)
  }

  /** Every filled slot holds what its own checkpoint loads. */
  predicate SlotsValid(s: Slots)
  {
    && (s.tokEnIndic.Some? ==> s.tokEnIndic.value == Tokenizer(CKPT_EN_INDIC))
    && (s.mdlEnIndic.Some? ==> s.mdlEnIndic.value == Seq2SeqModel(CKPT_EN_INDIC))
    && (s.tokIndicEn.Some? ==> s.tokIndicEn.value == Tokenizer(CKPT_INDIC_EN))
    && (s.mdlIndicEn.Some? ==> s.mdlIndicEn.value == Seq2SeqModel(CKPT_INDIC_EN))
    && (s.tokIndicIndic.Some? ==> s.tokIndicIndic.value == Tokenizer(CKPT_INDIC_INDIC))
    && (s.mdlIndicIndic.Some? ==> s.mdlIndicIndic.value == Seq2SeqModel(CKPT_INDIC_INDIC))
  }

  predicate DirectionLoaded(s: Slots, d: Direction)
  {
    match d
    case EnToIndic => s.tokEnIndic.Some? && s.mdlEnIndic.Some?
    case IndicToEn => s.tokIndicEn.Some? && s.mdlIndicEn.Some?
    case IndicToIndic => s.tokIndicIndic.Some? && s.mdlIndicIndic.Some?
  }

  /** The tokenizer and model slots of one direction. */
  function DirSlots(s: Slots, d: Direction): (Option<Tokenizer>, Option<Seq2SeqModel>)
  {
    match d
    case EnToIndic => (s.tokEnIndic, s.mdlEnIndic)
    case IndicToEn => (s.tokIndicEn, s.mdlIndicEn)
    case IndicToIndic => (s.tokIndicIndic, s.mdlIndicIndic)
  }

  function Fill<T>(slot: Option<T>, v: T): Option<T>
  {
    if slot.None? then Some(v) else slot
  }

  /** `_iproc`: create the processor if there is none. */
  function AfterIProc(s: Slots): (r: Slots)
    ensures SlotsExtend(s, r) && r.ip.Some?
    ensures r == s.(ip := r.ip)
  {
    s.(ip := Fill(s.ip, Processor))
  }

  /** `_load_*`: fill the tokenizer and model slots of one direction, each only if empty. */
  function AfterLoad(s: Slots, d: Direction): (r: Slots)
    requires SlotsValid(s)
    ensures SlotsValid(r) && SlotsExtend(s, r) && DirectionLoaded(r, d)
    ensures forall e :: e != d ==> DirSlots(r, e) == DirSlots(s, e)
    ensures r.ip == s.ip
  {
    match d
    case EnToIndic =>
      s.(tokEnIndic := Fill(s.tokEnIndic, Tokenizer(CKPT_EN_INDIC)),
         mdlEnIndic := Fill(s.mdlEnIndic, Seq2SeqModel(CKPT_EN_INDIC)))
    case IndicToEn =>
      s.(tokIndicEn := Fill(s.tokIndicEn, Tokenizer(CKPT_INDIC_EN)),
         mdlIndicEn := Fill(s.mdlIndicEn, Seq2SeqModel(CKPT_INDIC_EN)))
    case IndicToIndic =>
      s.(tokIndicIndic := Fill(s.tokIndicIndic, Tokenizer(CKPT_INDIC_INDIC)),
         mdlIndicIndic := Fill(s.mdlIndicIndic, Seq2SeqModel(CKPT_INDIC_INDIC)))
  }

  /** Loading twice is loading once; loading what is loaded changes nothing. */
  lemma LoadIdempotent(s: Slots, d: Direction)
    requires SlotsValid(s)
    ensures AfterLoad(AfterLoad(s, d), d) == AfterLoad(s, d)
    ensures DirectionLoaded(s, d) ==> AfterLoad(s, d) == s
  {
  }

  /** `preload_all`: the processor, then the three directions. */
  function AfterPreloadAll(s: Slots): (r: Slots)
    requires SlotsValid(s)
    ensures SlotsValid(r) && SlotsExtend(s, r) && r.ip.Some?
    ensures forall d :: DirectionLoaded(r, d)
  {
    AfterLoad(AfterLoad(AfterLoad(AfterIProc(s), EnToIndic), IndicToEn), IndicToIndic)
  }

  /** Once everything is loaded, preloading again changes nothing. */
  lemma PreloadAllIdempotent(s: Slots)
    requires SlotsValid(s)
    ensures AfterPreloadAll(AfterPreloadAll(s)) == AfterPreloadAll(s)
  {
  }

  /** The slots after `translate`: unchanged unless a route was chosen, then processor and that direction. */
  function SlotsAfterTranslate(s: Slots, plan: Result<Plan, TranslateError>): (r: Slots)
    requires SlotsValid(s)
    ensures SlotsValid(r) && SlotsExtend(s, r)
    ensures !(plan.Success? && plan.value.Route?) ==> r == s
    ensures plan.Success? && plan.value.Route? ==> r.ip.Some? && DirectionLoaded(r, plan.value.direction)
    ensures plan.Success? && plan.value.Route? ==>
      forall e :: e != plan.value.direction ==> DirSlots(r, e) == DirSlots(s, e)
  {
    if plan.Success? && plan.value.Route? then AfterLoad(AfterIProc(s), plan.value.direction) else s
  }

  /**
   * The model's text for a routed request, or None when tokenisation or
   * generation raises; arguments are the text, direction and both tags.
   */
  type Inference = (string, Direction, string, string) -> Option<string>

  /** What `translate` returns: `(text, src, tgt)`, or the ValueError it raises. */
  function TranslateResult(text: string, srcShort: string, tgtShort: string,
                           plan: Result<Plan, TranslateError>, infer: Inference)
    : (r: Result<(string, string, string), TranslateError>)
    ensures plan == Success(ShortCircuit) ==> r == Success(("", srcShort, tgtShort))
    ensures plan.Failure? ==> r == Failure(plan.error)
    ensures plan.Success? && plan.value.Route? ==>
      (r.Success? <==> infer(text, plan.value.direction, plan.value.srcTag, plan.value.tgtTag).Some?)
    ensures plan.Success? && plan.value.Route? && r.Success? ==>
      && r.value.0 == infer(text, plan.value.direction, plan.value.srcTag, plan.value.tgtTag).value
      && r.value.1 == plan.value.srcTag && r.value.2 == plan.value.tgtTag
    ensures r.Failure? && plan.Success? ==> r.error == InferenceFailed
  {
    match plan
    case Failure(e) => Failure(e)
    case Success(ShortCircuit) => Success(("", srcShort, tgtShort))
    case Success(Route(srcTag, tgtTag, d)) =>
      match infer(text, d, srcTag, tgtTag)
      case None => Failure(InferenceFailed)
      case Some(out) => Success((out, srcTag, tgtTag))
  }

  /** A successful translation of real text returns exactly the tags of the resolved codes. */
  lemma SuccessReturnsTags(text: string, srcShort: string, tgtShort: string,
                           detect: string -> Option<string>, infer: Inference)
    requires !IsBlank(text)
    requires TranslateResult(text, srcShort, tgtShort, PlanTranslation(text, srcShort, tgtShort, detect), infer).Success?
    ensures ResolveSource(text, srcShort, detect) in CODE_TO_TAG && tgtShort in CODE_TO_TAG
    ensures TranslateResult(text, srcShort, tgtShort, PlanTranslation(text, srcShort, tgtShort, detect), infer).value.1
         == CODE_TO_TAG[ResolveSource(text, srcShort, detect)]
    ensures TranslateResult(text, srcShort, tgtShort, PlanTranslation(text, srcShort, tgtShort, detect), infer).value.2
         == CODE_TO_TAG[tgtShort]
  {
  }

  // ---------------------------------------------------------------------
  // The service object
  // ---------------------------------------------------------------------

  /** The translation service; its seven slots start empty and fill on demand. */
  class IndicTransService {
    var ip: Option<Processor>
    var tokEnIndic: Option<Tokenizer>
    var mdlEnIndic: Option<Seq2SeqModel>
    var tokIndicEn: Option<Tokenizer>
    var mdlIndicEn: Option<Seq2SeqModel>
    var tokIndicIndic: Option<Tokenizer>
    var mdlIndicIndic: Option<Seq2SeqModel>

    function State(): Slots
      reads this
    {
      Slots(ip, tokEnIndic, mdlEnIndic, tokIndicEn, mdlIndicEn, tokIndicIndic, mdlIndicIndic)
    }

    ghost predicate Valid()
      reads this
    {
      SlotsValid(State())
    }

    constructor ()
      ensures Valid() && State() == NOTHING_LOADED
    {
      ip := None;
      tokEnIndic, mdlEnIndic := None, None;
      tokIndicEn, mdlIndicEn := None, None;
      tokIndicIndic, mdlIndicIndic := None, None;
    }

    method IProc() returns (p: Processor)
      requires Valid()
      modifies this
      ensures Valid() && State() == AfterIProc(old(State())) && ip == Some(p)
    {
      if ip.None? {
        ip := Some(Processor);
      }
      p := ip.value;
    }

    method LoadEnIndic()
      requires Valid()
      modifies this
      ensures Valid() && State() == AfterLoad(old(State()), EnToIndic)
    {
      if tokEnIndic.None? {
        tokEnIndic := Some(Tokenizer(CKPT_EN_INDIC));
      }
      if mdlEnIndic.None? {
        mdlEnIndic := Some(Seq2SeqModel(CKPT_EN_INDIC));
      }
    }

    method LoadIndicEn()
      requires Valid()
      modifies this
      ensures Valid() && State() == AfterLoad(old(State()), IndicToEn)
    {
      if tokIndicEn.None? {
        tokIndicEn := Some(Tokenizer(CKPT_INDIC_EN));
      }
      if mdlIndicEn.None? {
        mdlIndicEn := Some(Seq2SeqModel(CKPT_INDIC_EN));
      }
    }

    method LoadIndicIndic()
      requires Valid()
      modifies this
      ensures Valid() && State() == AfterLoad(old(State()), IndicToIndic)
    {
      if tokIndicIndic.None? {
        tokIndicIndic := Some(Tokenizer(CKPT_INDIC_INDIC));
      }
      if mdlIndicIndic.None? {
        mdlIndicIndic := Some(Seq2SeqModel(CKPT_INDIC_INDIC));
      }
    }

    /** Returns the three "loaded" flags of the report (the device entry is left out). */
    method PreloadAll() returns (enIndic: bool, indicEn: bool, indicIndic: bool)
      requires Valid()
      modifies this
      ensures Valid() && State() == AfterPreloadAll(old(State()))
      ensures enIndic && indicEn && indicIndic
    {
      var _ := IProc();
      LoadEnIndic();
      LoadIndicEn();
      LoadIndicIndic();
      enIndic := mdlEnIndic.Some?;
      indicEn := mdlIndicEn.Some?;
      indicIndic := mdlIndicIndic.Some?;
    }

    method Translate(text: string, srcShort: string, tgtShort: string,
                     detect: string -> Option<string>, infer: Inference)
      returns (r: Result<(string, string, string), TranslateError>)
      requires Valid()
      modifies this
      ensures Valid()
      ensures r == TranslateResult(text, srcShort, tgtShort, PlanTranslation(text, srcShort, tgtShort, detect), infer)
      ensures State() == SlotsAfterTranslate(old(State()), PlanTranslation(text, srcShort, tgtShort, detect))
    {
      if IsBlank(text) {
        return Success(("", srcShort, tgtShort));
      }
      var src := srcShort;
      if src == "auto" {
        src := AutoDetectShort(detect(text));
      }
      var srcTag := ShortToTag(src);
      var tgtTag := ShortToTag(tgtShort);
      if srcTag.None? || tgtTag.None? {
        return Failure(Unsupported(src, tgtShort, SUPPORTED_CODES));
      }
      var _ := IProc();
      var srcIsEn := srcTag.value == ENGLISH_TAG;
      var tgtIsEn := tgtTag.value == ENGLISH_TAG;
      var d: Direction;
      if srcIsEn && !tgtIsEn {
        LoadEnIndic();
        d := EnToIndic;
      } else if !srcIsEn && tgtIsEn {
        LoadIndicEn();
        d := IndicToEn;
      } else {
        LoadIndicIndic();
        d := IndicToIndic;
      }
      var out := infer(text, d, srcTag.value, tgtTag.value);
      if out.None? {
        return Failure(InferenceFailed);
      }
      r := Success((out.value, srcTag.value, tgtTag.value));
    }
  }

  /** The class attribute `_instance` behind `IndicTransService.get()`. */
  class ServiceRegistry {
    var instance: IndicTransService?

    /** A kept instance satisfies the service invariant. */
    ghost predicate Valid()
      reads this, instance
    {
      instance != null ==> instance.Valid()
    }

    constructor ()
      ensures Valid() && instance == null
    {
      instance := null;
    }

    method Get() returns (s: IndicTransService)
      requires Valid()
      modifies this
      ensures Valid() && s.Valid()
      ensures old(instance) != null ==> s == old(instance) && instance == old(instance)
      ensures old(instance) == null ==> fresh(s) && instance == s && s.Valid() && s.State() == NOTHING_LOADED
    {
      if instance == null {
        instance := new IndicTransService();
      }
      s := instance;
    }
  }
}
