/** The generation engine: from the loaded configuration and catalogue, the
    selected program, the input mode and the raw form fields, either a typed
    validation error or the finished affiliate link and narrative. */
module Engine {
  import opened Wrappers
  import opened JsStrings
  import opened UriEncoding
  import opened Replace

  /** The two bank accounts of the configuration (`rekening`). */
  datatype Rekening = Rekening(bsi: string, anBSI: string, mandiri: string, anMandiri: string)

  /** The general configuration document. */
  datatype Config = Config(baseUrl: string, konfirmasiDefault: string, rekening: Rekening)

  /** One entry of the program catalogue: display name, URL path and the
      narrative template holding the link marker. */
  datatype Program = Program(name: string, path: string, text: string)

  /** Both documents, once loaded. */
  datatype AppData = AppData(config: Config, programs: map<string, Program>)

  datatype InputMode = Code | Link

  datatype GenError =
    | DataNotReady
    | ProgramMissing
    | CodeMissing
    | LinkMissing
    | LinkMalformed
    | LinkMissingAffiliateParam

  datatype Generated = Generated(link: string, narrative: string)

  /** What the engine asks of the WHATWG URL Standard: whether `new URL(s)`
      succeeds, and whether the parsed URL's query has a parameter of the
      given name (`searchParams.has`). */
  datatype UrlStandard = UrlStandard(parses: string -> bool, hasQueryParam: (string, string) -> bool)

  const Marker: string := "{LINK}"
  const RekeningHeader: string := "\n\nRekening:\n"
  const AffiliateParam: string := "affiliate_code"
  const AffiliateQuery: string := "?affiliate_code="

  /** The values the program dropdown can hold: nothing chosen, or a key of
      the loaded catalogue. */
  predicate SelectableKey(data: Option<AppData>, key: string) {
    key == "" || (data.Some? && key in data.value.programs)
  }

  /** Characters that would end or split a query parameter's value. */
  predicate IsQueryDelimiter(c: char) {
    c == '?' || c == '&' || c == '=' || c == '#'
  }

  /** The prefix of every link built in code mode. */
  function CodeLinkPrefix(config: Config, program: Program): string {
    config.baseUrl + program.path + AffiliateQuery
  }

  /** The link built from an affiliate code: the program's address with the
      code, percent-encoded, as the value of `affiliate_code`. */
  function CodeLink(config: Config, program: Program, code: string): string {
    CodeLinkPrefix(config, program) + EncodeUriComponent(code)
  }

  lemma CodeLinkNonEmpty(config: Config, program: Program, code: string)
    ensures |CodeLink(config, program, code)| >= |AffiliateQuery| > 0
  {
    var p := CodeLinkPrefix(config, program);
    assert |p| == |config.baseUrl| + |program.path| + |AffiliateQuery|;
  }

  /** The value of `affiliate_code` in a code-mode link decodes back to the
      code. */
  lemma CodeLinkCarriesCode(config: Config, program: Program, code: string)
    ensures var link := CodeLink(config, program, code);
            var p := CodeLinkPrefix(config, program);
            && |p| <= |link| && link[..|p|] == p
            && PercentDecode(link[|p|..]) == Some(code)
  {
    var p := CodeLinkPrefix(config, program);
    var e := EncodeUriComponent(code);
    DecodeEncode(code);
    assert (p + e)[..|p|] == p;
    assert (p + e)[|p|..] == e;
  }

  /** ... and runs to the end of the link without a query delimiter. */
  lemma CodeLinkValueUndelimited(config: Config, program: Program, code: string)
    ensures var link := CodeLink(config, program, code);
            var p := CodeLinkPrefix(config, program);
            forall k :: |p| <= k < |link| ==> !IsQueryDelimiter(link[k])
  {
    var p := CodeLinkPrefix(config, program);
    var e := EncodeUriComponent(code);
    EncodedUndelimited(e);
    forall k | |p| <= k < |p + e| ensures !IsQueryDelimiter((p + e)[k]) {
      assert (p + e)[k] == e[k - |p|];
    }
  }

  lemma EncodedUndelimited(e: string)
    requires forall k :: 0 <= k < |e| ==> IsEncodedChar(e[k])
    ensures forall k :: 0 <= k < |e| ==> !IsQueryDelimiter(e[k])
  {
  }

  /** `s` is `suffix` preceded by at least one character. */
  predicate EndsWith(s: string, suffix: string) {
    |s| > |suffix| && s[|s| - |suffix|..] == suffix
  }

  /** The confirmation contact: the trimmed override, or the configured
      default when the override is only white space. */
  function Konfirmasi(override: string, default: string): (r: string)
    ensures AllWhiteSpace(override) ==> r == default
    ensures !AllWhiteSpace(override) ==> r == Trim(override) && r != [] && Trimmed(r)
  {
    var t := Trim(override);
    if t != [] then t else default
  }

  const BsiLabel: string := "\U{1F3E6} BSI "
  const HolderLabel: string := "a.n "
  const MandiriLabel: string := "\U{1F3E6} Mandiri "
  const KonfirmasiLabel: string := "\n\U{1F4DE} Konfirmasi: "

  /** One labelled line of the block. */
  function Line(tag: string, value: string): string {
    tag + value + "\n"
  }

  /** The fixed bank-account and confirmation block appended to every
      narrative: the header, the BSI account and its holder, the Mandiri
      account and its holder, a blank line and the confirmation contact. */
  function InfoRekening(rek: Rekening, konfirmasi: string): (r: string)
    ensures |r| > |konfirmasi| && r[|r| - |konfirmasi|..] == konfirmasi
    ensures |r| > |RekeningHeader| && r[..|RekeningHeader|] == RekeningHeader
  {
    var tail := KonfirmasiLabel + konfirmasi;
    var accounts := Line(BsiLabel, rek.bsi) + (Line(HolderLabel, rek.anBSI)
                    + (Line(MandiriLabel, rek.mandiri) + (Line(HolderLabel, rek.anMandiri) + tail)));
    var r := RekeningHeader + accounts;
    assert r[|r| - |konfirmasi|..] == tail[|tail| - |konfirmasi|..];
    assert tail[|tail| - |konfirmasi|..] == konfirmasi;
    assert r[..|RekeningHeader|] == RekeningHeader;
    r
  }

  /** `r` holds `tag`, then `value`, then a line break, from index `i` on. */
  predicate LabelledLine(r: string, i: int, tag: string, value: string) {
    0 <= i && i + |Line(tag, value)| <= |r| && r[i..i + |Line(tag, value)|] == Line(tag, value)
  }

  /** Where each configured value falls in the block: after the header come
      the four labelled account lines in order, then the confirmation label
      and the contact, with nothing in between. */
  lemma InfoRekeningLines(rek: Rekening, konfirmasi: string)
    ensures var r := InfoRekening(rek, konfirmasi);
            && LabelledLine(r, BsiAt(), BsiLabel, rek.bsi)
            && LabelledLine(r, AnBsiAt(rek), HolderLabel, rek.anBSI)
            && LabelledLine(r, MandiriAt(rek), MandiriLabel, rek.mandiri)
            && LabelledLine(r, AnMandiriAt(rek), HolderLabel, rek.anMandiri)
            && r[KonfirmasiAt(rek)..] == KonfirmasiLabel + konfirmasi
  {
    var r := InfoRekening(rek, konfirmasi);
    BlockRest1(rek, konfirmasi);
    LineAt(r, BsiAt(), BsiLabel, rek.bsi, Rest2(rek, konfirmasi));
    BlockRest2(rek, konfirmasi);
    LineAt(r, AnBsiAt(rek), HolderLabel, rek.anBSI, Rest3(rek, konfirmasi));
    BlockRest3(rek, konfirmasi);
    LineAt(r, MandiriAt(rek), MandiriLabel, rek.mandiri, Rest4(rek, konfirmasi));
    BlockRest4(rek, konfirmasi);
    LineAt(r, AnMandiriAt(rek), HolderLabel, rek.anMandiri, KonfirmasiLabel + konfirmasi);
  }

  // Where each line of the block starts: each begins one line after the
  // previous one.
  function BsiAt(): nat { |RekeningHeader| }
  function AnBsiAt(rek: Rekening): nat { BsiAt() + |Line(BsiLabel, rek.bsi)| }
  function MandiriAt(rek: Rekening): nat { AnBsiAt(rek) + |Line(HolderLabel, rek.anBSI)| }
  function AnMandiriAt(rek: Rekening): nat { MandiriAt(rek) + |Line(MandiriLabel, rek.mandiri)| }
  function KonfirmasiAt(rek: Rekening): nat { AnMandiriAt(rek) + |Line(HolderLabel, rek.anMandiri)| }

  // What follows the header and each of the first three lines.
  function Rest4(rek: Rekening, k: string): string {
    Line(HolderLabel, rek.anMandiri) + (KonfirmasiLabel + k)
  }
  function Rest3(rek: Rekening, k: string): string { Line(MandiriLabel, rek.mandiri) + Rest4(rek, k) }
  function Rest2(rek: Rekening, k: string): string { Line(HolderLabel, rek.anBSI) + Rest3(rek, k) }

  lemma BlockRest1(rek: Rekening, k: string)
    ensures InfoRekening(rek, k)[BsiAt()..] == Line(BsiLabel, rek.bsi) + Rest2(rek, k)
  {
    HeaderRest(RekeningHeader, Line(BsiLabel, rek.bsi) + Rest2(rek, k), InfoRekening(rek, k));
  }

  lemma BlockRest2(rek: Rekening, k: string)
    ensures InfoRekening(rek, k)[AnBsiAt(rek)..] == Rest2(rek, k)
  {
    BlockRest1(rek, k);
    LineAt(InfoRekening(rek, k), BsiAt(), BsiLabel, rek.bsi, Rest2(rek, k));
  }

  lemma BlockRest3(rek: Rekening, k: string)
    ensures InfoRekening(rek, k)[MandiriAt(rek)..] == Rest3(rek, k)
  {
    BlockRest2(rek, k);
    LineAt(InfoRekening(rek, k), AnBsiAt(rek), HolderLabel, rek.anBSI, Rest3(rek, k));
  }

  lemma BlockRest4(rek: Rekening, k: string)
    ensures InfoRekening(rek, k)[AnMandiriAt(rek)..] == Rest4(rek, k)
  {
    BlockRest3(rek, k);
    LineAt(InfoRekening(rek, k), MandiriAt(rek), MandiriLabel, rek.mandiri, Rest4(rek, k));
  }

  lemma HeaderRest(h: string, rest: string, r: string)
    requires r == h + rest
    ensures r[|h|..] == rest
  {
  }

  /** A labelled line at index `i`, and what follows it. */
  lemma LineAt(r: string, i: int, tag: string, value: string, rest: string)
    requires 0 <= i <= |r| && r[i..] == Line(tag, value) + rest
    ensures LabelledLine(r, i, tag, value)
    ensures r[i + |Line(tag, value)|..] == rest
  {
    var l := Line(tag, value);
    assert r[i..][..|l|] == l;
    assert r[i..i + |l|] == r[i..][..|l|];
    assert r[i..][|l|..] == rest;
    assert r[i + |l|..] == r[i..][|l|..];
  }

  /** The mode-specific checks and the link they produce. */
  function FinalLink(config: Config, program: Program, url: UrlStandard, mode: InputMode,
                     codeInput: string, linkInput: string): (r: Result<string, GenError>)
    ensures r.Ok? ==> r.value != []
  {
    match mode
    case Code =>
      var code := Trim(codeInput);
      if code == [] then Err(CodeMissing)
      else
        CodeLinkNonEmpty(config, program, code);
        Ok(CodeLink(config, program, code))
    case Link =>
      var link := Trim(linkInput);
      if link == [] then Err(LinkMissing)
      else if !url.parses(link) then Err(LinkMalformed)
      else if !url.hasQueryParam(link, AffiliateParam) then Err(LinkMissingAffiliateParam)
      else Ok(link)
  }

  /** The narrative: the template with its first marker replaced by the link
      (JS replace semantics), then the fixed block. */
  function Narrative(template: string, link: string, block: string): (r: string)
    ensures |r| >= |block| && r[|r| - |block|..] == block
  {
    ReplaceFirst(template, Marker, link) + block
  }

  /** handleGenerate's decision: the first failing check wins; on success the
      link and narrative that become the generation state. */
  function Generate(data: Option<AppData>, url: UrlStandard, key: string, mode: InputMode,
                    codeInput: string, linkInput: string, konfirmasiInput: string)
    : (r: Result<Generated, GenError>)
    requires SelectableKey(data, key)
    ensures r.Ok? ==> r.value.link != [] && r.value.narrative != []
  {
    if data.None? then Err(DataNotReady)
    else if key == [] then Err(ProgramMissing)
    else
      var config := data.value.config;
      var program := data.value.programs[key];
      match FinalLink(config, program, url, mode, codeInput, linkInput)
      case Err(e) => Err(e)
      case Ok(link) =>
        var block := InfoRekening(config.rekening, Konfirmasi(konfirmasiInput, config.konfirmasiDefault));
        Ok(Generated(link, Narrative(program.text, link, block)))
  }

  // ---- Validation order ---------------------------------------------------

  /** Validation steps in the order they are made: whether each passed, and
      the error it reports if not. */
  datatype Checks = Done | Then(passed: bool, error: GenError, rest: Checks)

  /** The error of the first step that did not pass; None when all passed. */
  function FirstError(cs: Checks): Option<GenError> {
    match cs
    case Done => None
    case Then(passed, error, rest) => if !passed then Some(error) else FirstError(rest)
  }

  /** The checks handleGenerate makes, in the order it makes them. */
  function ValidationChecks(data: Option<AppData>, url: UrlStandard, key: string, mode: InputMode,
                            codeInput: string, linkInput: string): Checks
  {
    Then(data.Some?, DataNotReady,
    Then(key != [], ProgramMissing,
      match mode
      case Code =>
        Then(Trim(codeInput) != [], CodeMissing, Done)
      case Link =>
        var link := Trim(linkInput);
        Then(link != [], LinkMissing,
        Then(url.parses(link), LinkMalformed,
        Then(url.hasQueryParam(link, AffiliateParam), LinkMissingAffiliateParam, Done)))))
  }

  /** Generation fails exactly when one of the checks fails, and then with
      the error of the first failing one. */
  lemma FirstFailureWins(data: Option<AppData>, url: UrlStandard, key: string, mode: InputMode,
                         codeInput: string, linkInput: string, konfirmasiInput: string)
    requires SelectableKey(data, key)
    ensures var r := Generate(data, url, key, mode, codeInput, linkInput, konfirmasiInput);
            var e := FirstError(ValidationChecks(data, url, key, mode, codeInput, linkInput));
            (r.Err? <==> e.Some?) && (r.Err? ==> r.error == e.value)
  {
    var r := Generate(data, url, key, mode, codeInput, linkInput, konfirmasiInput);
    var after := ValidationChecks(data, url, key, mode, codeInput, linkInput).rest.rest;
    if data.Some? && key != [] {
      match mode
      case Code =>
        assert FirstError(after) == if Trim(codeInput) == [] then Some(CodeMissing) else None;
      case Link =>
        var link := Trim(linkInput);
        var hasParam := url.hasQueryParam(link, AffiliateParam);
        assert FirstError(after.rest.rest) == if !hasParam then Some(LinkMissingAffiliateParam) else None;
        if link == [] {
          assert r == Err(LinkMissing) && FirstError(after) == Some(LinkMissing);
        } else {
          assert FirstError(after) == FirstError(after.rest);
          if !url.parses(link) {
            assert r == Err(LinkMalformed);
          } else if !hasParam {
            assert r == Err(LinkMissingAffiliateParam);
          } else {
            assert r.Ok?;
          }
        }
    }
  }

  // ---- Code mode ----------------------------------------------------------

  /** In code mode: white space only gives CodeMissing; otherwise the link is
      the program address with the trimmed code percent-encoded, and the code
      can be read back from it. */
  lemma CodeModeLink(data: AppData, url: UrlStandard, key: string,
                     codeInput: string, linkInput: string, konfirmasiInput: string)
    requires key != [] && key in data.programs
    ensures var r := Generate(Some(data), url, key, Code, codeInput, linkInput, konfirmasiInput);
            var p := CodeLinkPrefix(data.config, data.programs[key]);
            && (AllWhiteSpace(codeInput) <==> r == Err(CodeMissing))
            && (!AllWhiteSpace(codeInput) ==>
                  && r.Ok?
                  && r.value.link == data.config.baseUrl + data.programs[key].path
                                     + "?affiliate_code=" + EncodeUriComponent(Trim(codeInput))
                  && PercentDecode(r.value.link[|p|..]) == Some(Trim(codeInput)))
  {
    var r := Generate(Some(data), url, key, Code, codeInput, linkInput, konfirmasiInput);
    var program := data.programs[key];
    var code := Trim(codeInput);
    if !AllWhiteSpace(codeInput) {
      var link := CodeLink(data.config, program, code);
      assert FinalLink(data.config, program, url, Code, codeInput, linkInput) == Ok(link);
      assert r.Ok? && r.value.link == link;
      CodeLinkCarriesCode(data.config, program, code);
    } else {
      assert FinalLink(data.config, program, url, Code, codeInput, linkInput) == Err(CodeMissing);
    }
  }

  // ---- Link mode ----------------------------------------------------------

  /** In link mode: white space only gives LinkMissing, a link that does not
      parse gives LinkMalformed, one without `affiliate_code` gives
      LinkMissingAffiliateParam, and otherwise the trimmed link is used as it
      is. */
  lemma LinkModeLink(data: AppData, url: UrlStandard, key: string,
                     codeInput: string, linkInput: string, konfirmasiInput: string)
    requires key != [] && key in data.programs
    ensures var r := Generate(Some(data), url, key, Link, codeInput, linkInput, konfirmasiInput);
            var link := Trim(linkInput);
            && (AllWhiteSpace(linkInput) <==> r == Err(LinkMissing))
            && (r == Err(LinkMalformed) <==> !AllWhiteSpace(linkInput) && !url.parses(link))
            && (r == Err(LinkMissingAffiliateParam) <==>
                  !AllWhiteSpace(linkInput) && url.parses(link) && !url.hasQueryParam(link, "affiliate_code"))
            && (r.Ok? <==> !AllWhiteSpace(linkInput) && url.parses(link) && url.hasQueryParam(link, "affiliate_code"))
            && (r.Ok? ==> r.value.link == link)
  {
  }

  /** The field of the inactive mode, and the URL parser in code mode, have
      no say in the outcome. */
  lemma InactiveFieldIgnored(data: Option<AppData>, url: UrlStandard, url': UrlStandard, key: string,
                             codeInput: string, linkInput: string, codeInput': string, linkInput': string,
                             konfirmasiInput: string)
    requires SelectableKey(data, key)
    ensures Generate(data, url, key, Code, codeInput, linkInput, konfirmasiInput)
         == Generate(data, url', key, Code, codeInput, linkInput', konfirmasiInput)
    ensures Generate(data, url, key, Link, codeInput, linkInput, konfirmasiInput)
         == Generate(data, url, key, Link, codeInput', linkInput, konfirmasiInput)
  {
  }

  // ---- Narrative ----------------------------------------------------------

  /** A successful generation is the link of the mode-specific checks and
      the narrative built from it. */
  lemma GenerateOk(data: AppData, url: UrlStandard, key: string, mode: InputMode,
                   codeInput: string, linkInput: string, konfirmasiInput: string)
    requires key != [] && key in data.programs
    requires Generate(Some(data), url, key, mode, codeInput, linkInput, konfirmasiInput).Ok?
    ensures var g := Generate(Some(data), url, key, mode, codeInput, linkInput, konfirmasiInput).value;
            var fl := FinalLink(data.config, data.programs[key], url, mode, codeInput, linkInput);
            var c := data.config;
            && fl == Ok(g.link)
            && g.narrative == Narrative(data.programs[key].text, g.link,
                                        InfoRekening(c.rekening, Konfirmasi(konfirmasiInput, c.konfirmasiDefault)))
  {
  }

  /** The converse: once the mode-specific checks give a link, generation
      succeeds with that link and the narrative built from it. */
  lemma GenerateFromLink(data: AppData, url: UrlStandard, key: string, mode: InputMode,
                         codeInput: string, linkInput: string, konfirmasiInput: string,
                         link: string, narrative: string)
    requires key != [] && key in data.programs
    requires FinalLink(data.config, data.programs[key], url, mode, codeInput, linkInput) == Ok(link)
    requires narrative == Narrative(data.programs[key].text, link,
                                    InfoRekening(data.config.rekening,
                                                 Konfirmasi(konfirmasiInput, data.config.konfirmasiDefault)))
    ensures Generate(Some(data), url, key, mode, codeInput, linkInput, konfirmasiInput)
         == Ok(Generated(link, narrative))
  {
  }

  /** The narrative is the template with its first marker replaced by the
      link (literally, when the link holds no `$`), or the template unchanged
      when it has no marker, followed by the block. */
  lemma NarrativeCases(t: string, link: string, block: string)
    ensures (forall k :: !OccursAt(t, "{LINK}", k)) ==> Narrative(t, link, block) == t + block
    ensures forall i :: '$' !in link && OccursAt(t, "{LINK}", i)
                        && (forall k :: 0 <= k < i ==> !OccursAt(t, "{LINK}", k))
                        ==> Narrative(t, link, block) == t[..i] + link + t[i + 6..] + block
  {
    if forall k :: !OccursAt(t, Marker, k) {
      ReplaceNoOccurrence(t, Marker, link);
    }
    forall i | '$' !in link && OccursAt(t, Marker, i) && (forall k :: 0 <= k < i ==> !OccursAt(t, Marker, k))
      ensures Narrative(t, link, block) == t[..i] + link + t[i + 6..] + block
    {
      ReplaceFirstOccurrence(t, Marker, link, i);
    }
  }

  /** On success the narrative is the template with its first marker
      replaced by the link (literally, when the link holds no `$`), or the
      template unchanged when it has no marker, followed by the block with the
      resolved confirmation contact. */
  lemma NarrativeShape(data: AppData, url: UrlStandard, key: string, mode: InputMode,
                       codeInput: string, linkInput: string, konfirmasiInput: string)
    requires key != [] && key in data.programs
    requires Generate(Some(data), url, key, mode, codeInput, linkInput, konfirmasiInput).Ok?
    ensures var g := Generate(Some(data), url, key, mode, codeInput, linkInput, konfirmasiInput).value;
            var t := data.programs[key].text;
            var c := data.config;
            var block := InfoRekening(c.rekening, Konfirmasi(konfirmasiInput, c.konfirmasiDefault));
            && ((forall k :: !OccursAt(t, "{LINK}", k)) ==> g.narrative == t + block)
            && (forall i :: '$' !in g.link && OccursAt(t, "{LINK}", i)
                  && (forall k :: 0 <= k < i ==> !OccursAt(t, "{LINK}", k))
                  ==> g.narrative == t[..i] + g.link + t[i + 6..] + block)
  {
    var g := Generate(Some(data), url, key, mode, codeInput, linkInput, konfirmasiInput).value;
    var c := data.config;
    GenerateOk(data, url, key, mode, codeInput, linkInput, konfirmasiInput);
    NarrativeCases(data.programs[key].text, g.link,
                   InfoRekening(c.rekening, Konfirmasi(konfirmasiInput, c.konfirmasiDefault)));
  }

  /** In code mode the link holds no `$` when the configured address and
      path hold none, so its insertion into the template is literal. */
  lemma CodeLinkDollarFree(config: Config, program: Program, code: string)
    requires '$' !in config.baseUrl + program.path
    ensures '$' !in CodeLink(config, program, code)
  {
    var e := EncodeUriComponent(code);
    assert forall k :: 0 <= k < |e| ==> e[k] != '$';
    assert '$' !in AffiliateQuery;
  }

  /** The confirmation contact is the trimmed override when it has any
      non-white-space character, else the configured default. */
  lemma KonfirmasiChoice(data: AppData, url: UrlStandard, key: string, mode: InputMode,
                         codeInput: string, linkInput: string, konfirmasiInput: string)
    requires key != [] && key in data.programs
    requires Generate(Some(data), url, key, mode, codeInput, linkInput, konfirmasiInput).Ok?
    ensures var n := Generate(Some(data), url, key, mode, codeInput, linkInput, konfirmasiInput).value.narrative;
            EndsWith(n, if AllWhiteSpace(konfirmasiInput) then data.config.konfirmasiDefault else Trim(konfirmasiInput))
  {
    var c := data.config;
    var g := Generate(Some(data), url, key, mode, codeInput, linkInput, konfirmasiInput).value;
    var k := Konfirmasi(konfirmasiInput, c.konfirmasiDefault);
    var head := ReplaceFirst(data.programs[key].text, Marker, g.link);
    assert g.narrative == head + InfoRekening(c.rekening, k) by {
      GenerateOk(data, url, key, mode, codeInput, linkInput, konfirmasiInput);
    }
    assert k == if AllWhiteSpace(konfirmasiInput) then c.konfirmasiDefault else Trim(konfirmasiInput);
    EndsWithBlock(head, c.rekening, k);
  }

  /** Whatever precedes the block, the narrative ends with the contact. */
  lemma EndsWithBlock(head: string, rek: Rekening, k: string)
    ensures EndsWith(head + InfoRekening(rek, k), k)
  {
    var block := InfoRekening(rek, k);
    assert (head + block)[|head + block| - |k|..] == block[|block| - |k|..];
  }

  // ---- Worked examples ----------------------------------------------------

  /** A configuration with base URL `https://x.org` and default contact
      `0812`, and a program `promo` with path `/promo` and template
      `Join {LINK} now`: in code mode with code "abc" and no override, the
      link and the narrative. */
  lemma ExampleCodeMode(data: AppData, url: UrlStandard)
    requires data.config.baseUrl == "https://x.org" && data.config.konfirmasiDefault == "0812"
    requires "promo" in data.programs
    requires data.programs["promo"].path == "/promo" && data.programs["promo"].text == "Join {LINK} now"
    ensures var link := "https://x.org/promo?affiliate_code=abc";
            Generate(Some(data), url, "promo", Code, "abc", "", "")
              == Ok(Generated(link, "Join " + link + " now" + InfoRekening(data.config.rekening, "0812")))
  {
    var link := "https://x.org/promo?affiliate_code=abc";
    var program := data.programs["promo"];
    var c := data.config;
    ExampleLink(c, program, url, "abc", link);
    assert AllWhiteSpace("");
    ExampleTemplate(program.text, link);
    GenerateFromLink(data, url, "promo", Code, "abc", "", "", link,
                     "Join " + link + " now" + InfoRekening(c.rekening, "0812"));
  }

  lemma ExampleLink(config: Config, program: Program, url: UrlStandard, code: string, link: string)
    requires config.baseUrl == "https://x.org" && program.path == "/promo"
    requires code == "abc" && link == "https://x.org/promo?affiliate_code=abc"
    ensures FinalLink(config, program, url, Code, code, "") == Ok(link)
  {
    ExampleCodeTrimmed(code);
    ExampleCodeLink(config, program, code, link);
    TrimmedCodeLink(config, program, url, code, link);
  }

  lemma ExampleCodeTrimmed(code: string)
    requires code == "abc"
    ensures Trim(code) == code && code != []
  {
    TrimOfTrimmed(code);
  }

  lemma ExampleCodeLink(config: Config, program: Program, code: string, link: string)
    requires config.baseUrl == "https://x.org" && program.path == "/promo"
    requires code == "abc" && link == "https://x.org/promo?affiliate_code=abc"
    ensures CodeLink(config, program, code) == link
  {
    EncodeAbc(code);
    ExampleLinkText(config.baseUrl, program.path, AffiliateQuery, code);
  }

  lemma TrimmedCodeLink(config: Config, program: Program, url: UrlStandard, code: string, link: string)
    requires Trim(code) == code && code != [] && CodeLink(config, program, code) == link
    ensures FinalLink(config, program, url, Code, code, "") == Ok(link)
  {
  }

  lemma EncodeAbc(s: string)
    requires s == "abc"
    ensures EncodeUriComponent(s) == s
  {
    assert forall k :: 0 <= k < |s| ==> IsUnreserved(s[k]);
  }

  lemma ExampleLinkText(a: string, b: string, q: string, e: string)
    requires a == "https://x.org" && b == "/promo" && q == "?affiliate_code=" && e == "abc"
    ensures a + b + q + e == "https://x.org/promo?affiliate_code=abc"
  {
  }

  lemma ExampleTemplate(t: string, link: string)
    requires t == "Join {LINK} now" && link == "https://x.org/promo?affiliate_code=abc"
    ensures ReplaceFirst(t, Marker, link) == "Join " + link + " now"
  {
    ExampleTemplateParts(t);
    ReplaceFirstOccurrence(t, Marker, link, 5);
  }

  lemma ExampleTemplateParts(t: string)
    requires t == "Join {LINK} now"
    ensures forall k :: 0 <= k < 5 ==> !OccursAt(t, Marker, k)
    ensures OccursAt(t, Marker, 5) && t[..5] == "Join " && t[11..] == " now"
  {
    forall k | 0 <= k < 5 ensures !OccursAt(t, Marker, k) {
      assert t[k..k + 6][0] != Marker[0];
    }
  }

  /** Link mode with a link whose query lacks `affiliate_code` is rejected
      with LinkMissingAffiliateParam. */
  lemma ExampleLinkWithoutParam(data: AppData, url: UrlStandard, link: string, codeInput: string,
                                konfirmasiInput: string)
    requires "promo" in data.programs
    requires link == "https://x.org/promo?foo=1"
    requires url.parses(link) && !url.hasQueryParam(link, "affiliate_code")
    ensures Generate(Some(data), url, "promo", Link, codeInput, link, konfirmasiInput)
         == Err(LinkMissingAffiliateParam)
  {
    assert link[0] == 'h' && link[|link| - 1] == '1';
    TrimOfTrimmed(link);
    LinkModeLink(data, url, "promo", codeInput, link, konfirmasiInput);
  }
}
