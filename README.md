# discordrus hook, modelled in Dafny

This project models the decision core of `discordrus`, a Logrus hook that
forwards log entries to a Discord webhook. It covers how the hook is
constructed and which levels it subscribes to, and the fail-fast check on an
empty webhook URL. It covers the snapshot `Fire` takes of an attached HTTP
request: the body is drained and both the caller's request and the clone get
fresh readers over the same bytes. It covers the colour of each severity, the
"REQUEST PAYLOAD" field list (live request or manual strings), and the
composed document: an info embed, a payload embed, and either a `MESSAGE`
embed or a file attachment. `Fire` returns what it would post,
`Deliver(plan)`, or `Err(message)`. Nothing is sent.

Go strings are byte strings, so every string of the model is a `seq<byte>`,
and lengths such as the 500-byte message limit and the 1024-byte raw-body cap
count bytes.

Modules, one per component of `hook.go`:

- `GoText` (`text.dfy`): bytes, ASCII literals, the two code-fence forms, `strings.Contains`, ASCII upper-casing.
- `Levels` (`levels.dfy`): logrus levels as a `uint32` newtype, `NewHook`, `Levels`, the colour switch, the info-embed title.
- `Streams` (`streams.dfy`): a body reader class (bytes, read position, optional failure point), `io.ReadAll` as a loop over 512-byte reads, and the request fields the hook reads.
- `Fields` (`fields.dfy`): the content-type dispatch and the field builders. The builders are methods that append step by step, each proved equal to a reference function.
- `Document` (`compose.dfy`): embeds, the `sendAsFile` decision, the composer method and its reference function.
- `Discord` (`hook.dfy`): the entry's data map, the payload snapshot, the delivery routine, `Fire`, and two client methods.

Behaviour of `hook.go` a reader may not expect, which the model keeps:

- A failed body read keeps what was read: `io.ReadAll` returns the bytes read before the error, and the hook ignores the error and keeps them (hook.go:111). The model's reader has a failure point, and both new readers hold the bytes before it.
- The two JSON renderings (url-encoded form and multipart) and the multipart error text are fenced without the space before the closing backticks (hook.go:191, 240, 262). Every other value uses `"```" + s + " ```"`.
- For a live request the snapshot carries only the cloned request. The four manual strings of the payload are dropped (hook.go:104-106).
- The 500 limit on the message compares `len(entry.Message)`, a byte count (hook.go:312).

## Model

| member | source | states |
|---|---|---|
| `Levels.NewHook` | hook.go:68-83 | keeps the URL; an empty level list gives exactly [Panic, Fatal, Error, Warn] in that order; a non-empty list is kept unchanged |
| `Levels.DefaultSubscription` | hook.go:68-88 | `Levels.Levels` and `Levels.Subscribed`: without explicit levels the hook fires exactly for the levels at least as severe as warning |
| `Levels.ExplicitLevelsReplace` | hook.go:68-88 | explicit levels replace the default set: the hook fires for exactly the given levels |
| `Levels.HookNeverSilent` | hook.go:68-88 | a constructed hook subscribes to at least one level, with or without explicit levels |
| `Levels.TitleTable` | hook.go:316 | `Levels.Title`, over `Levels.LevelName`: the info title is the upper-cased logrus name: PANIC, FATAL, ERROR, WARNING, INFO, DEBUG, TRACE, and UNKNOWN for unnamed values |
| `Levels.ColourBySeverity` | hook.go:139-147 | `Levels.Colour`: error colour 16725591 iff the level is at least as severe as error; warn colour 16760630 iff warning; default colour 12434877 iff less severe than warning (unnamed values included) |
| `Levels.DefaultLevelsAreHighlighted` | hook.go:70-77 | a level subscribed by default never gets the default colour |
| `GoText.AsciiUpper` | hook.go:316 | same length; each lower-case ASCII letter becomes its capital (32 less), and every other byte is unchanged |
| `Streams.ReadAll` | hook.go:111 | returns exactly the bytes left before end-of-file or the read error, leaves the reader drained, and reports a failure iff the stream was broken (the hook ignores that report) |
| `Streams.Body.FromBytes` | hook.go:114-115 | a new reader that is positioned at the start of the given bytes and never fails |
| `Streams.Request.Clone` | hook.go:105 | same method, URL and content type, and, like Go's `Clone`, the same body reader |
| `Discord.Snapshot` | hook.go:96-127 | a live request is cloned. When it has a body, the caller's request and the clone get two distinct fresh readers over exactly the bytes that were left. A nil body stays nil on both. A manual payload is copied field by field |
| `Discord.Fire` | hook.go:91-127 | an empty URL gives the error "Discord webhook url is empty" and touches nothing. Otherwise it delivers the plan built from the entry and the request as it was on entry. The caller's request keeps its metadata and reads the same bytes as before |
| `Discord.CallerReadsBodyAfterFire` | hook.go:109-116 | a caller reading its body after `Fire` gets exactly the bytes that were left in it; these are all of its bytes when the stream was unread and healthy |
| `Discord.FireTwice` | hook.go:91-127 | firing twice for the same entry gives the same plan |
| `Discord.RenderLive` | hook.go:166-173 | the live branch reads the snapshot body, gives it a fresh reader over the same bytes, builds the live fields from them, and keeps the method, URL and content type |
| `Discord.InfoDescription` | hook.go:130-137 | `Discord.ErrorMessage`: the info embed's description is `Error()` of an error value, the string itself for a string value, and empty for any other value or a missing key |
| `Fields.DispatchIsFirstHit` | hook.go:176-268 | `Fields.Dispatch`, the content-type switch, takes the first marker of the table json, multipart, url-encoded that the header contains, and the raw branch when none matches |
| `Fields.DispatchPrecedence` | hook.go:176-268 | `Fields.Dispatch`: each branch is taken iff its marker occurs and no earlier marker does |
| `Fields.DispatchJsonWithCharset` | hook.go:177 | a JSON type with a charset parameter takes the JSON branch |
| `Fields.DispatchJsonBeforeForm` | hook.go:177 | JSON is tested first: a header naming the form type and then JSON takes the JSON branch |
| `Fields.DispatchMissingHeader` | hook.go:268 | a missing (empty) header and a short unknown type take the raw branch |
| `Fields.CopyForm` | hook.go:254-257 | the loop copies the parsed form into a map equal to it |
| `Fields.BuildLiveFields` | hook.go:155-280 | the appended fields equal the reference live field list |
| `Fields.LiveFieldsShape` | hook.go:155-164 | Method and URL are always the first two fields, and at most one Body field follows |
| `Fields.JsonBodyVerbatim` | hook.go:177-181 | a JSON body is always added verbatim and fenced, even when it is empty |
| `Fields.RawBodyCap` | hook.go:268-279 | another content type adds a Body field iff the body is 1 to 1024 bytes long; the body is then verbatim, never truncated |
| `Fields.FormBodyCases` | hook.go:245-266 | an empty url-encoded body adds nothing. A body that does not parse is added verbatim. A parsed body adds its JSON encoding iff the encoding succeeds |
| `Fields.MultipartBodyCases` | hook.go:183-243 | the multipart branch adds its tightly fenced rendering iff it has one |
| `Fields.BuildManualFields` | hook.go:281-305 | the four guarded appends equal the reference manual field list |
| `Fields.ManualFieldsUnfold` | hook.go:282-305 | the manual list is the Method, URL, Body and Headers candidates, each dropped when empty |
| `Fields.PresentMembers` | hook.go:282-305 | a field is kept iff it comes from a candidate with non-empty text, fenced |
| `Fields.PresentKeepsOrder` | hook.go:282-305 | dropping empty candidates keeps the order of the others |
| `Fields.ManualFieldsPresence` | hook.go:282-305 | each manual field is present iff its string is non-empty, with value "```" + s + " ```"; no other field appears |
| `Fields.ManualFieldsOrder` | hook.go:282-305 | the manual fields come in the order Method, URL, Body, Headers |
| `Document.Compose` | hook.go:309-334 | the appended embeds and the chosen mode equal the reference plan |
| `Document.ExactlyOneCarrier` | hook.go:310-334 | up to 500 bytes: three embeds, the last titled MESSAGE with the fenced message, inline mode. Above 500: two embeds and the raw message as the attachment. Never both, never neither |
| `Document.FixedEmbeds` | hook.go:314-326 | username Golang. The info embed has the level title, the error text and the timestamp. The payload embed is titled REQUEST PAYLOAD and holds the given fields |
| `Document.UniformColour` | hook.go:314-333 | every embed carries the level's colour |
| `Document.MessageRecoverable` | hook.go:328-350 | `Document.DeliveredMessage`: the message can be read back from the plan unchanged, from the attachment or from between the fences of the MESSAGE embed |

## Left out

- The goroutine: the delivery routine runs to completion inside `Fire` and returns its plan. Fire-and-forget concurrency and the data race it avoids are not modelled.
- The HTTP transport: `http.NewRequest`, `http.Client.Do`, the status check, and the `fmt.Println` diagnostics are network I/O and side output. So `Fire` returning nil for a non-empty URL holds only for its synchronous return: inline mode calls `request.Header.Set` before checking the error of `http.NewRequest` (hook.go:395-397), so a URL that `url.Parse` rejects (such as `http://a b`) makes the delivery goroutine panic for every message of 500 bytes or fewer. File mode checks the error first (hook.go:374-378).
- `json.Marshal` of the whole document can fail, and then nothing is posted. The plan does not model that failure, or the JSON bytes themselves.
- The multipart writer (`payload_json`, `files[0]`, `log.txt`) builds the file-mode body with a library serialiser. The plan carries only the attachment's bytes.
- The multipart branch of the field builder (`ParseMultipartForm`, the two form maps, the `%.2f KB` sizes) depends on library parsing and float formatting. Its rendered text, or the lack of one, is a parameter (`Env.multipart`). The nil `MultipartForm` dereference after `ErrNotMultipart` is not modelled.
- `url.ParseQuery` and `json.MarshalIndent` of a form are parameters of type `Env`. Only their success and failure paths are modelled.
- `Request.Clone`, `URL.String()` and `Header.Get("Content-Type")` are taken as plain strings on the request object. For `Clone` the model keeps Go's sharing of the body reader.
- `json.Marshal` of the document (hook.go:336) replaces invalid UTF-8 bytes with U+FFFD in every inline string: the message in the `MESSAGE` embed, the field values, the description and the title. The plan holds the raw bytes, so `Document.MessageRecoverable` is about the plan; only the file attachment reaches the webhook byte for byte.
- The entry time is taken already formatted as RFC 3339; the formatting is not modelled.
- `Levels.TitleTable`: `strings.ToUpper` is modelled for ASCII only, which covers every logrus level name.
- The `Level.String()` names come from logrus, which is not part of this model; the model takes logrus's names for levels 0 to 6 and "unknown" otherwise.
- The level slice is shared both ways: `NewHook(url, ls...)` keeps the caller's slice `ls` itself (hook.go:69, 81), and `Levels()` returns the hook's own slice (hook.go:86-88), so either side could mutate the other's levels. The model holds the levels as a value.
