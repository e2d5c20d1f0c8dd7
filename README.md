# PCGenerator affiliate-narrative generator, modelled in Dafny

PCGenerator is a client-side page that builds donation-campaign messages. A
user picks a program from the loaded catalogue. They then give either an
affiliate code or a complete affiliate link, and optionally a confirmation
contact. "Generate & Copy" builds the link and the narrative:

- the program's template with its first `{LINK}` marker replaced by the link;
- followed by a fixed bank-account block that ends with the confirmation contact.

The narrative is shown in a preview and written to the clipboard. It can be
copied again or shared to WhatsApp. Any edit of the form clears what was
generated.

The project models `script/app.js`:

- `js_strings.dfy` (module `JsStrings`): `String.prototype.trim`, with the
  white-space and line-terminator code points of ECMA-262.
- `uri_encoding.dfy` (module `UriEncoding`): `encodeURIComponent`, meaning
  UTF-8 octets written as upper-case `%XY`. It also has a decoder after
  `decodeURIComponent`, and proves the round trip.
- `replace.dfy` (module `Replace`): `String.prototype.replace` with a string
  pattern. Only the first occurrence is replaced, and the replacement's `$$`,
  `$&`, `` $` `` and `$'` patterns are expanded.
- `engine.dfy` (module `Engine`): the configuration and catalogue data, and
  `Generate`, the decision `handleGenerate` makes. `Generate` returns either a
  typed validation error or the link and the narrative. The file also holds
  the lemmas about `Generate`: validation order, code mode, link mode,
  narrative shape, the confirmation contact, and worked examples.
- `app.dfy` (module `App`): class `Generator`. Its fields are the form
  fields and the generation state (`currentLink`, `currentNarasi`) together
  with the preview. Its methods are the event handlers. Notifications, focus,
  the preview reveal, clipboard writes and window opening are returned as a
  sequence of `Effect` values.
- `wrappers.dfy` (module `Wrappers`): `Option` and `Result`.

The narrative is built with JavaScript `replace` (`script/app.js:221`). It
replaces only the first `{LINK}`, and expands `$&`, `` $` ``, `$'` and `$$` in
the link rather than inserting them as written
(`Replace.DollarPatternExpands`). The template may also contain the link's
text elsewhere. So `Engine.NarrativeShape` states literal insertion only for a
link without `$`. `Engine.CodeLinkDollarFree` shows that every code-mode link
qualifies when the base URL and the path hold no `$`.

Inputs from outside the page are parameters of the model:

- the loaded documents are an `Option<AppData>`;
- the URL parser is a `UrlStandard` value, which answers whether `new URL(s)`
  succeeds and whether `searchParams.has(name)` holds;
- the mobile test is the `isMobile` argument of `HandleShareWhatsApp`.

## Model

| member | source | states |
|---|---|---|
| `JsStrings.Trim` | script/app.js:151-153 | The result is empty exactly when the input is all white space. A non-empty result neither starts nor ends with white space. |
| `JsStrings.TrimStart` | script/app.js:151-153 | The result is a suffix of the input, everything dropped is white space, and the result does not start with white space. |
| `JsStrings.TrimEnd` | script/app.js:151-153 | The result is a prefix of the input, everything dropped is white space, and the result does not end with white space. |
| `JsStrings.TrimIsInfix` | script/app.js:151-153 | The trimmed value is a contiguous part of the input, and only white space is dropped on either side. |
| `JsStrings.TrimIdempotent` | script/app.js:151-153 | Trimming twice gives the same result as trimming once. |
| `JsStrings.TrimOfTrimmed` | script/app.js:151-153 | A string with no white space at either end is its own trim. |
| `UriEncoding.EncodeUriComponent` | script/app.js:177 | The output contains only unreserved characters and `%`. A string of unreserved characters is left unchanged. |
| `UriEncoding.Utf8` | script/app.js:177 | The UTF-8 step of encodeURIComponent: one to four octets per code point. `Utf8RoundTrip` states that they decode back. |
| `UriEncoding.EncodeChar` | script/app.js:177 | One character: kept if unreserved, else its escaped UTF-8 octets. Its contract is `DecodeEncodedChar`. |
| `UriEncoding.DecodeEncodedChar` | script/app.js:177 | Decoding one encoded character, followed by anything, gives that character followed by the decoding of the rest. |
| `UriEncoding.EscapeOctets` | script/app.js:177 | Each octet becomes three characters, each of them `%` or an upper-case hex digit. |
| `UriEncoding.DecodeEncode` | script/app.js:177 | Percent-decoding the encoding of any string gives that string back. |
| `UriEncoding.EncodeInjective` | script/app.js:177 | Two strings with the same encoding are equal. |
| `UriEncoding.Utf8RoundTrip` | script/app.js:177 | UTF-8 encoding of a code point gives a lead octet announcing the right length, and the octets decode back to the code point. |
| `Replace.IndexOf` | script/app.js:221 | The index found is the first occurrence of the pattern. None means the pattern occurs nowhere. |
| `Replace.Substitute` | script/app.js:221 | GetSubstitution's `$$`, `$&`, `` $` `` and `$'` patterns. A replacement string without `$` is inserted unchanged. |
| `Replace.ReplaceFirst` | script/app.js:221 | Without an occurrence of the pattern the string is unchanged. Otherwise everything before the first occurrence and everything after it is kept. `ReplaceFirstOccurrence` states what goes in between. |
| `Replace.ReplaceNoOccurrence` | script/app.js:221 | A string with no occurrence of the pattern is unchanged by `replace`. |
| `Replace.ReplaceFirstOccurrence` | script/app.js:221 | With a `$`-free replacement, exactly the first occurrence is replaced and everything around it is kept. |
| `Replace.DollarPatternExpands` | script/app.js:221 | Replacing `{LINK}` in `a{LINK}b` by `x$&y` gives `ax{LINK}yb`: the `$&` pattern brings back the matched text. |
| `Engine.CodeLinkPrefix` | script/app.js:177 | baseUrl + path + `?affiliate_code=`. Its contract is `CodeLinkCarriesCode`. |
| `Engine.CodeLink` | script/app.js:177 | The prefix followed by encodeURIComponent(code). `CodeLinkCarriesCode`, `CodeLinkValueUndelimited` and `CodeLinkNonEmpty` state its contract. |
| `Engine.CodeLinkNonEmpty` | script/app.js:177 | A code-mode link is at least as long as `?affiliate_code=`. |
| `Engine.CodeLinkCarriesCode` | script/app.js:177 | A code-mode link starts with base URL, path and `?affiliate_code=`, and the rest decodes back to the code. |
| `Engine.CodeLinkValueUndelimited` | script/app.js:177 | The code's value runs to the end of the link without `?`, `&`, `=` or `#`. |
| `Engine.CodeLinkDollarFree` | script/app.js:177 | If the base URL and path contain no `$`, neither does a code-mode link. |
| `Engine.Konfirmasi` | script/app.js:206 | The result is the default when the override is all white space. Otherwise it is the trimmed override: non-empty and with no white space at either end. |
| `Engine.InfoRekening` | script/app.js:209-217 | The block starts with the blank lines and the `Rekening:` header, and ends with the confirmation contact. |
| `Engine.InfoRekeningLines` | script/app.js:209-217 | The block's layout, which determines it fully. After the header come four lines, each a label, a value and a line break: BSI with `bsi`, `a.n` with `anBSI`, Mandiri with `mandiri`, `a.n` with `anMandiri`. Then comes the confirmation label, preceded by a blank line, followed by the contact and nothing else. |
| `Engine.FinalLink` | script/app.js:166-203 | A link accepted by the mode-specific checks is non-empty. |
| `Engine.Generate` | script/app.js:144-221 | On success both the link and the narrative are non-empty. |
| `Engine.FirstFailureWins` | script/app.js:145-203 | Generation fails exactly when one of the ordered checks fails, and then with the error of the first failing check. The order is: data loaded, program chosen, then the mode's checks (code non-blank; or link non-blank, parses, has `affiliate_code`). |
| `Engine.CodeModeLink` | script/app.js:168-177 | In code mode, a blank code gives exactly CodeMissing. Otherwise generation succeeds with the link baseUrl + path + `?affiliate_code=` + encodeURIComponent(trimmed code), whose value decodes back to the trimmed code. |
| `Engine.LinkModeLink` | script/app.js:179-203 | In link mode, each outcome holds exactly under its condition: LinkMissing for a blank link, LinkMalformed when it does not parse, LinkMissingAffiliateParam when it lacks the parameter, success otherwise. On success the link is the trimmed input unchanged. |
| `Engine.InactiveFieldIgnored` | script/app.js:164-203 | The field of the inactive mode never changes the outcome. Neither does the URL parser in code mode. |
| `Engine.Narrative` | script/app.js:221 | The narrative ends with the block. `NarrativeCases` states what precedes it. |
| `Engine.NarrativeCases` | script/app.js:221 | A template without the marker is kept unchanged. Otherwise a `$`-free link is inserted literally at the first marker, followed by the block. |
| `Engine.NarrativeShape` | script/app.js:219-221 | The same two cases hold for the narrative a successful generation produces. |
| `Engine.KonfirmasiChoice` | script/app.js:153-217 | A generated narrative ends with the trimmed override. Without a non-blank override it ends with the configured default. |
| `Engine.EndsWithBlock` | script/app.js:209-221 | Whatever precedes the block, the narrative ends with the confirmation contact. |
| `Engine.ExampleCodeMode` | script/app.js:168-221 | baseUrl `https://x.org`, path `/promo`, template `Join {LINK} now`, code `abc`, no override: the link is `https://x.org/promo?affiliate_code=abc`, and the narrative is `Join <link> now` followed by the block with contact `0812`. |
| `Engine.ExampleLinkWithoutParam` | script/app.js:179-195 | Link mode with `https://x.org/promo?foo=1`, which parses but lacks `affiliate_code`, is rejected with LinkMissingAffiliateParam. |
| `App.GenerateEffects` | script/app.js:145-230 | A failure shows exactly one notification, its error's, first. Anything after it is a focus: on the code field for a blank code and on the link field for a blank link. A failure never reveals the preview, writes the clipboard or opens a window. A success first reveals the preview, writes the narrative to the clipboard and shows the success notification, and moves no focus. |
| `App.ErrorMessage` | script/app.js:146-200 | The notification text of each validation error, character for character. `ErrorMessagesDistinct` states its contract. |
| `App.MessageLength` | script/app.js:146-200 | The six messages have six different lengths. |
| `App.ErrorMessagesDistinct` | script/app.js:146-200 | Different validation errors show different messages. |
| `App.ShareUrl` | script/app.js:255-261 | The URL starts with `whatsapp://send?text=` on mobile and `https://wa.me/?text=` otherwise. The rest is percent-encoded, using only unreserved characters and `%`, and decodes back to the narrative. |
| `App.Generator.constructor` | script/app.js:32-33 | On page load nothing is generated, the preview is hidden and the fields are empty. The Generate button is enabled exactly when loading succeeded. |
| `App.Generator.ResetPreview` | script/app.js:301-305 | Link and narrative are cleared and the preview is hidden. |
| `App.Generator.ProgramChanged` | script/app.js:114 | Choosing a program sets the key and clears the generation state. |
| `App.Generator.CodeEdited` | script/app.js:115 | Editing the code sets it and clears the generation state. |
| `App.Generator.LinkEdited` | script/app.js:116 | Editing the link sets it and clears the generation state. |
| `App.Generator.KonfirmasiEdited` | script/app.js:117 | Editing the contact sets it and clears the generation state. |
| `App.Generator.InputModeChanged` | script/app.js:123-137 | Switching mode empties the other mode's field, keeps the active one and clears the generation state. |
| `App.Generator.Outcome` | script/app.js:150-164 | What handleGenerate reads from the form: program key, checked mode and the three fields. It is `Generate` of those fields; `HandleGenerate` states what follows from it. |
| `App.Generator.HandleGenerate` | script/app.js:144-231 | The effects are those of the outcome for the fields as they were. A failure changes nothing. A success stores and shows exactly the generated link and narrative. |
| `App.Generator.ShowGenerated` | script/app.js:220-226 | Stores the link and narrative and shows them in the revealed preview. |
| `App.Generator.HandleCopyNarasi` | script/app.js:236-243 | With nothing generated, only the "generate first" warning appears. Otherwise the narrative is written to the clipboard, then the copied notification appears. |
| `App.Generator.HandleShareWhatsApp` | script/app.js:249-264 | With nothing generated, only the warning appears. Otherwise the WhatsApp URL for the narrative opens in `_blank`. |
| `App.ResetTwiceScenario` | script/app.js:301-305 | A second reset leaves the state of the first, and neither reset touches the form fields. |
| `App.BlankCodeScenario` | script/app.js:123-137 | Switching to code mode and typing only white space leaves nothing generated. The next generate reports CodeMissing when data and a program are present, and DataNotReady when data is missing. |

## Left out

- Loading (`loadData`, lines 49-84): the two fetches, JSON parsing and the
  `BASE_PATH` detection are I/O. Their outcome is the constructor's
  `Option<AppData>`: None when loading failed, which also disables the button.
  A half-loaded state (configuration parsed, catalogue not) behaves like None
  here, as both the code and the model refuse to generate in it. The
  placeholder text set at line 76 is presentation only.
- `populateDropdown` (lines 89-98) builds DOM options. The model keeps only
  what it implies: the program key is empty or a catalogue key
  (`SelectableKey`). Any other key would make the code throw a TypeError,
  and the model rules it out instead.
- `bindEvents` (lines 103-118) is DOM wiring. Each listener is the `Generator`
  method of the same event.
- The checked radio button is the `mode` field. `InputModeChanged` sets it,
  as the browser checks the radio before the change event fires.
- The show and hide of the two input sections in `handleInputModeChange`
  (lines 127-128, 131-132) is not modelled as state. `mode` stands for which
  section is visible: the code section in code mode, the link section in link
  mode.
- `copyToClipboard` (lines 271-285), with its secure-context and textarea
  fallback, becomes one `WriteClipboard` effect. Permission failures are not
  modelled.
- `showPreview` (lines 290-296): its timed smooth scroll is part of the
  `RevealPreview` effect.
- `showToast` (lines 311-315): its 2.2-second timer is not modelled. Only the
  message is.
- The WHATWG URL parser behind `new URL` and `searchParams.has` is an oracle
  parameter (`UrlStandard`). The model never looks inside it.
- The user-agent regular expression (line 258) is the `isMobile` argument.
- `window.open` is modelled only as the URL and target it receives.
- Lone UTF-16 surrogates, for which `encodeURIComponent` throws URIError,
  cannot occur: Dafny's `char` is a Unicode scalar value.
- The asynchronous `await` before the success notification is not modelled.
  The effects are listed in the order they are issued. The smooth scroll that
  `RevealPreview` stands for actually runs 150 ms later (lines 293-295), after
  the clipboard write has been issued.
- The loaded documents are taken to be the configuration and catalogue objects
  the page expects. A response whose JSON is `null` parses without error
  (lines 70-71) and leaves the button enabled. With such a response,
  handleGenerate answers DataNotReady (lines 145-147). `Valid()` ties the
  enabled button to `data.Some?`, so it cannot express that state.
