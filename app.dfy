/** The page's state machine: the generation state (`currentLink`,
    `currentNarasi`), the form fields it is generated from, and the handlers
    that change them. Toasts, focus, clipboard writes, the preview reveal and
    window navigation are returned as effects. */
module App {
  import opened Wrappers
  import opened UriEncoding
  import opened JsStrings
  import opened Engine

  datatype Field = CodeField | LinkField

  datatype Effect =
    | ShowToast(message: string)
    | Focus(field: Field)
    | RevealPreview                 // un-hide the preview and scroll it into view
    | WriteClipboard(text: string)
    | OpenWindow(url: string, target: string)

  const Warning: string := "\U{26A0}\U{FE0F} "
  const MsgGenerateFirst: string := Warning + "Generate narasi dulu."
  const MsgGenerated: string := "\U{2705} Narasi berhasil di-generate & disalin!"
  const MsgCopied: string := "\U{1F4CB} Narasi berhasil disalin ke clipboard!"

  /** The notification each validation error shows. */
  function ErrorMessage(e: GenError): string {
    match e
    case DataNotReady => "\U{274C} Data belum dimuat."
    case ProgramMissing => Warning + "Pilih program donasi dulu."
    case CodeMissing => Warning + "Masukkan kode affiliate dulu."
    case LinkMissing => Warning + "Masukkan link affiliate lengkap dulu."
    case LinkMalformed => Warning + "Format link tidak valid. Pastikan URL lengkap."
    case LinkMissingAffiliateParam => Warning + "Link harus mengandung parameter ?affiliate_code="
  }

  /** What handleGenerate does besides updating the state: on failure one
      notification (and focus for an empty field) and nothing else; on success
      the preview, the clipboard write of the narrative and the success
      notification. */
  function GenerateEffects(r: Result<Generated, GenError>): (effects: seq<Effect>)
    ensures r.Err? ==> |effects| >= 1 && effects[0] == ShowToast(ErrorMessage(r.error))
    ensures r.Err? ==> forall k :: 1 <= k < |effects| ==> effects[k].Focus?
    ensures r == Err(CodeMissing) ==> Focus(CodeField) in effects
    ensures r == Err(LinkMissing) ==> Focus(LinkField) in effects
    ensures r.Ok? ==> |effects| >= 1 && effects[0] == RevealPreview
    ensures r.Ok? ==> WriteClipboard(r.value.narrative) in effects && ShowToast(MsgGenerated) in effects
    ensures r.Ok? ==> forall k :: 0 <= k < |effects| ==> !effects[k].Focus? && !effects[k].OpenWindow?
  {
    match r
    case Err(CodeMissing) => [ShowToast(ErrorMessage(CodeMissing)), Focus(CodeField)]
    case Err(LinkMissing) => [ShowToast(ErrorMessage(LinkMissing)), Focus(LinkField)]
    case Err(e) => [ShowToast(ErrorMessage(e))]
    case Ok(g) => [RevealPreview, WriteClipboard(g.narrative), ShowToast(MsgGenerated)]
  }

  /** The WhatsApp deep link for a narrative: the app scheme on mobile
      devices, wa.me otherwise, with the narrative percent-encoded as `text`:
      the text holds only unreserved characters and `%`, and decodes back to
      the narrative. */
  function ShareUrl(narrative: string, isMobile: bool): (url: string)
    ensures var prefix := if isMobile then "whatsapp://send?text=" else "https://wa.me/?text=";
            && |prefix| <= |url| && url[..|prefix|] == prefix
            && (forall k :: |prefix| <= k < |url| ==> IsEncodedChar(url[k]))
            && PercentDecode(url[|prefix|..]) == Some(narrative)
  {
    var prefix := if isMobile then "whatsapp://send?text=" else "https://wa.me/?text=";
    var encoded := EncodeUriComponent(narrative);
    DecodeEncode(narrative);
    forall k | |prefix| <= k < |prefix + encoded| ensures IsEncodedChar((prefix + encoded)[k]) {
      assert (prefix + encoded)[k] == encoded[k - |prefix|];
    }
    assert (prefix + encoded)[..|prefix|] == prefix;
    assert (prefix + encoded)[|prefix|..] == encoded;
    prefix + encoded
  }

  class Generator {
    /** The loaded configuration and catalogue; None when loading failed. */
    const data: Option<AppData>
    /** The Generate button stays enabled unless loading failed. */
    const generateEnabled: bool

    // Form fields: the program dropdown, the checked input-mode radio and
    // the three text inputs.
    var programKey: string
    var mode: InputMode
    var codeInput: string
    var linkInput: string
    var konfirmasiInput: string

    // Generation state and what the preview shows.
    var currentLink: string
    var currentNarasi: string
    var previewVisible: bool
    var linkPreview: string
    var previewText: string

    /** Link and narrative are set and cleared together; the preview is shown
        exactly while there is a narrative, and then shows the current state. */
    ghost predicate Valid()
      reads this
    {
      && (currentLink == [] <==> currentNarasi == [])
      && (previewVisible <==> currentNarasi != [])
      && (previewVisible ==> linkPreview == currentLink && previewText == currentNarasi)
      && SelectableKey(data, programKey)
      && generateEnabled == data.Some?
    }

    /** The page after loading: empty fields, nothing generated. */
    constructor (loaded: Option<AppData>, initialMode: InputMode)
      ensures Valid()
      ensures data == loaded && generateEnabled == loaded.Some? && mode == initialMode
      ensures programKey == [] && codeInput == [] && linkInput == [] && konfirmasiInput == []
      ensures currentLink == [] && currentNarasi == [] && !previewVisible
      ensures linkPreview == [] && previewText == []
    {
      data := loaded;
      generateEnabled := loaded.Some?;
      programKey, mode := [], initialMode;
      codeInput, linkInput, konfirmasiInput := [], [], [];
      currentLink, currentNarasi := [], [];
      previewVisible := false;
      linkPreview, previewText := [], [];
    }

    /** resetPreview: clears the generation state and hides the preview. */
    method ResetPreview()
      requires Valid()
      modifies this`currentLink, this`currentNarasi, this`previewVisible
      ensures Valid()
      ensures currentLink == [] && currentNarasi == [] && !previewVisible
    {
      currentNarasi := [];
      currentLink := [];
      previewVisible := false;
    }

    /** A new program chosen in the dropdown. */
    method ProgramChanged(key: string)
      requires Valid() && SelectableKey(data, key)
      modifies this`programKey, this`currentLink, this`currentNarasi, this`previewVisible
      ensures Valid()
      ensures programKey == key
      ensures currentLink == [] && currentNarasi == [] && !previewVisible
    {
      programKey := key;
      ResetPreview();
    }

    /** An edit of the affiliate-code field. */
    method CodeEdited(value: string)
      requires Valid()
      modifies this`codeInput, this`currentLink, this`currentNarasi, this`previewVisible
      ensures Valid()
      ensures codeInput == value
      ensures currentLink == [] && currentNarasi == [] && !previewVisible
    {
      codeInput := value;
      ResetPreview();
    }

    /** An edit of the full-link field. */
    method LinkEdited(value: string)
      requires Valid()
      modifies this`linkInput, this`currentLink, this`currentNarasi, this`previewVisible
      ensures Valid()
      ensures linkInput == value
      ensures currentLink == [] && currentNarasi == [] && !previewVisible
    {
      linkInput := value;
      ResetPreview();
    }

    /** An edit of the confirmation-contact field. */
    method KonfirmasiEdited(value: string)
      requires Valid()
      modifies this`konfirmasiInput, this`currentLink, this`currentNarasi, this`previewVisible
      ensures Valid()
      ensures konfirmasiInput == value
      ensures currentLink == [] && currentNarasi == [] && !previewVisible
    {
      konfirmasiInput := value;
      ResetPreview();
    }

    /** handleInputModeChange, once the radio for `newMode` is checked: the
        field of the other mode is cleared, the active one kept, and the
        generation state reset. */
    method InputModeChanged(newMode: InputMode)
      requires Valid()
      modifies this`mode, this`codeInput, this`linkInput,
               this`currentLink, this`currentNarasi, this`previewVisible
      ensures Valid()
      ensures mode == newMode
      ensures newMode == Code ==> linkInput == [] && codeInput == old(codeInput)
      ensures newMode == Link ==> codeInput == [] && linkInput == old(linkInput)
      ensures currentLink == [] && currentNarasi == [] && !previewVisible
    {
      mode := newMode;
      if newMode == Code {
        linkInput := [];
      } else {
        codeInput := [];
      }
      ResetPreview();
    }

    /** What handleGenerate decides for the current form fields. */
    function Outcome(url: UrlStandard): Result<Generated, GenError>
      requires SelectableKey(data, programKey)
      reads this`programKey, this`mode, this`codeInput, this`linkInput, this`konfirmasiInput
    {
      Generate(data, url, programKey, mode, codeInput, linkInput, konfirmasiInput)
    }

    /** handleGenerate: on failure nothing changes; on success the link and
        narrative become the generation state and are shown. */
    method HandleGenerate(url: UrlStandard) returns (effects: seq<Effect>)
      requires Valid()
      modifies this`currentLink, this`currentNarasi, this`previewVisible,
               this`linkPreview, this`previewText
      ensures Valid()
      ensures var r := old(Outcome(url));
              && effects == GenerateEffects(r)
              && (r.Err? ==> unchanged(this))
              && (r.Ok? ==> && currentLink == r.value.link && currentNarasi == r.value.narrative
                            && previewVisible && linkPreview == r.value.link
                            && previewText == r.value.narrative)
    {
      var r := Outcome(url);
      if r.Ok? {
        ShowGenerated(r.value.link, r.value.narrative);
      }
      effects := GenerateEffects(r);
    }

    /** The success half of handleGenerate: store the result and show it. */
    method ShowGenerated(link: string, narrative: string)
      requires Valid() && link != [] && narrative != []
      modifies this`currentLink, this`currentNarasi, this`previewVisible,
               this`linkPreview, this`previewText
      ensures Valid()
      ensures currentLink == link && currentNarasi == narrative
      ensures previewVisible && linkPreview == link && previewText == narrative
    {
      currentLink, currentNarasi := link, narrative;
      linkPreview, previewText := link, narrative;
      previewVisible := true;
    }

    /** handleCopyNarasi: with nothing generated only a warning; otherwise
        the narrative goes to the clipboard. */
    method HandleCopyNarasi() returns (effects: seq<Effect>)
      ensures currentNarasi == [] ==> effects == [ShowToast(MsgGenerateFirst)]
      ensures currentNarasi != [] ==> effects == [WriteClipboard(currentNarasi), ShowToast(MsgCopied)]
    {
      if currentNarasi == [] {
        effects := [ShowToast(MsgGenerateFirst)];
      } else {
        effects := [WriteClipboard(currentNarasi), ShowToast(MsgCopied)];
      }
    }

    /** handleShareWhatsApp: with nothing generated only a warning; otherwise
        the WhatsApp link for the narrative opens in a new window. */
    method HandleShareWhatsApp(isMobile: bool) returns (effects: seq<Effect>)
      ensures currentNarasi == [] ==> effects == [ShowToast(MsgGenerateFirst)]
      ensures currentNarasi != [] ==> effects == [OpenWindow(ShareUrl(currentNarasi, isMobile), "_blank")]
    {
      if currentNarasi == [] {
        effects := [ShowToast(MsgGenerateFirst)];
        return;
      }
      var url := ShareUrl(currentNarasi, isMobile);
      effects := [OpenWindow(url, "_blank")];
    }
  }

  /** Each validation error has its own message. */
  lemma ErrorMessagesDistinct(e1: GenError, e2: GenError)
    requires e1 != e2
    ensures ErrorMessage(e1) != ErrorMessage(e2)
  {
    MessageLength(e1);
    MessageLength(e2);
  }

  /** The messages already differ in length. */
  lemma MessageLength(e: GenError)
    ensures |ErrorMessage(e)| == match e
      case DataNotReady => 20
      case ProgramMissing => 29
      case CodeMissing => 32
      case LinkMissing => 40
      case LinkMalformed => 49
      case LinkMissingAffiliateParam => 51
  {
  }

  /** Resetting twice leaves the same state as resetting once, and neither
      reset touches the form fields. */
  method ResetTwiceScenario(g: Generator)
    requires g.Valid()
    modifies g
    ensures g.Valid() && g.currentLink == [] && g.currentNarasi == [] && !g.previewVisible
    ensures g.programKey == old(g.programKey) && g.mode == old(g.mode) && g.codeInput == old(g.codeInput)
    ensures g.linkInput == old(g.linkInput) && g.konfirmasiInput == old(g.konfirmasiInput)
  {
    g.ResetPreview();
    var link1, narasi1, shown1 := g.currentLink, g.currentNarasi, g.previewVisible;
    g.ResetPreview();
    assert g.currentLink == link1 && g.currentNarasi == narasi1 && g.previewVisible == shown1;
  }

  /** Switching to code mode and typing only white space: generation is
      refused with CodeMissing and nothing is generated. */
  method BlankCodeScenario(g: Generator, url: UrlStandard, blank: string) returns (effects: seq<Effect>)
    requires g.Valid() && AllWhiteSpace(blank)
    modifies g
    ensures g.Valid() && g.mode == Code && g.codeInput == blank && g.linkInput == []
    ensures g.currentLink == [] && g.currentNarasi == [] && !g.previewVisible
    ensures g.data.Some? && g.programKey != [] ==> effects == GenerateEffects(Err(CodeMissing))
    ensures g.data.None? ==> effects == GenerateEffects(Err(DataNotReady))
  {
    g.InputModeChanged(Code);
    g.CodeEdited(blank);
    if g.data.Some? && g.programKey != [] {
      CodeModeLink(g.data.value, url, g.programKey, g.codeInput, g.linkInput, g.konfirmasiInput);
    }
    effects := g.HandleGenerate(url);
  }
}
