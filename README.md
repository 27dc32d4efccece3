# Wrap grooming, label derivation and response logging, in Dafny

krapper is a back end that serves Kubernetes resources through generic
forms. Each form is described by a *Wrap* document (YAML or JSON). Before a
Wrap is used it is *groomed*:

- its header is checked (API version, kind, name, version, menu mode,
  source);
- an empty label is derived from the name by `Labelize`;
- every schema field is groomed recursively (field, variant record, array,
  object, leaf variants).

Grooming a field does three things. It fills every empty property with its
default: labels, UI components, alignments, value paths, widths and heights.
It checks the components and alignments that remain. It stops at the first
failure; a failure inside a field is prefixed with `field '<name>': `.

This project models that grooming pass, the `Labelize` algorithm with its
acronym rule, and the HTTP logging pieces. The logging pieces are the
capturing response writer and the rendering of a body for the log (binary
detection, truncation).

The modules follow the source files:

| module | file | content |
|---|---|---|
| `WrapBase` | `wrap_base.dfy` | errors and their messages, `validCel`, `Validation.groom`, `validAlignment`, menu modes, `joinPath` |
| `StringField`, `BooleanField`, `IntegerField`, `NumberField`, `DurationField` | `field_*.dfy` | the leaf variants and their `groom` |
| `WrapTree` | `wrap.dfy` | `Field`, `Type`, `FieldArray`, `FieldObject` and the `Wrap` class with `Groom` |
| `Labelize` | `labelize.dfy` | the two regular-expression passes as scans, `strings.Fields`, `strings.Title`, `strings.Join`, `isAcronym`, `Labelize` |
| `LabelizeProps` | `labelize_props.dfy` | properties of `Labelize` |
| `LabelizeFixpoint` | `labelize_fixpoint.dfy` | `Labelize` is idempotent; only delimiters and spaces give the empty label |
| `LabelizeExamples` | `labelize_examples.dfy` | the test table of `Labelize`, proved row by row |
| `Logging` | `logging.dfy` | `isPrintable`, `getSafeBodyString`, `responseWriter` |

Every groomed node has three reference definitions:

- `…Problem` is the first error grooming reports for the node.
- `…Fixed` says that a node is already in groomed form.
- `Defaulted` / `Groomed…` is the value grooming makes of the node.

Every groom method is proved to report exactly `…Problem`. When that is
`None`, it is proved to return exactly the `Groomed…` value. Lemmas then
connect the three definitions:

- grooming succeeds exactly when its result is in groomed form;
- a groomed node is left as it is (idempotence);
- a groomed node has no problem.

These definitions are the specification. They are stated through the rows
below that name their methods and lemmas. The same holds for the other
definitions that carry no `ensures` of their own:

- `WrapBase.Message` is the text of each error (the `fmt.Errorf` calls of
  `back/internal/wrap/*.go`). Its rows are `QualifyMessage`,
  `NestedFieldMessage` and `AsInvalidValidationMessage`.
- `WrapBase.ValidMenuMode` is `validMenuModes` (`wrap.go:120-123`). Its row
  is `Wrap.GroomHeader`.
- `ValidUi` of each leaf module is that variant's table of UI components.
  Its rows are the module's `Groom` and `Defaulted`.
- `WrapTree.ObjectValuePath`, `WrapTree.FieldValuePath` and
  `Wrap.GetValuePath` are the three `GetValuePath` methods
  (`field_object.go:22-24`, `field.go:24-26`, `wrap.go:70-72`). Their rows
  are `GroomObject`, `GroomField` and `Wrap.Groom`.
- `Labelize.CamelSplit`, `ReplaceDelims`, `Fields`, `JoinWords`, `Words`
  and `LabelOf` are the passes of `Labelize`. Their rows are in
  `LabelizeProps`, `LabelizeFixpoint` and `LabelizeExamples`.
- `Logging.IsPrintableByte` and `Logging.MostlyPrintable` are the byte test
  and the ratio test of `isPrintable`. Their rows are `IsPrintable`,
  `CountsSplit` and `MostlyPrintableIffFewBinary`.

### Behaviour of the code that is easy to miss

- **Labels may stay empty.** One might expect a groomed field or Wrap always
  to have a label. The code sets it to `Labelize(name)`, which is empty for a
  name made only of delimiters or spaces (`"___"`). So `FieldFixed` and
  `Wrap.Fixed` accept an empty label when the name gives none.
- **`strings.Title` capitalises more than the first letter.** It upper-cases
  every letter that follows a separator, so `"foo.bar"` becomes `"Foo.Bar"`.
  It does not only capitalise the first letter of the first word.
  `TitleAfter` models the separator rule.
- **The nil test on an array's item validation is inverted.**
  `field_array.go` grooms the item validation when it is nil, which
  dereferences nil. It never checks a validation that is present. The model
  reports this as the error `NilDereference`, which is never prefixed with a
  field name (a panic unwinds past the prefixing code). So every array
  without an item validation fails grooming.
- **`validCel` is a placeholder.** It accepts every expression. Hence no CEL
  error is ever produced, and the outcome of grooming does not depend on
  default value paths.

## Model

| member | source | states |
|---|---|---|
| WrapBase.QualifyMessage | back/internal/wrap/wrap.go:111-116 | an error inside a field reads "field '<name>': " followed by the cause's text; a nil-dereference panic keeps its own text and is never found inside a field error |
| WrapBase.NestedFieldMessage | back/internal/wrap/field_object.go:30-35 | an error in a field of an object field names the outer field first, then the inner one, then the cause |
| WrapBase.AsInvalidValidationMessage | back/internal/wrap/field.go:38-43 | a validation error reads "invalid validation: " followed by the cause's text; a panic keeps its own text |
| WrapBase.OrDefaultIdempotent | back/internal/wrap/field_string.go:24-26 | defaulting a string property twice is defaulting it once; with a non-empty default no property stays empty; the value is kept exactly when it is set or the default is empty |
| WrapBase.OrDefaultIntIdempotent | back/internal/wrap/field_string.go:31-36 | the same for integer properties, where zero means unset |
| WrapBase.ValidCel | back/internal/wrap/wrap.go:134-152 | every CEL expression is accepted |
| WrapBase.GroomValidation | back/internal/wrap/wrap.go:130-132 | a present validation is checked with validCel; a nil one is a nil dereference, and only a nil one is |
| WrapBase.ValidAlignment | back/internal/wrap/wrap.go:154-161 | accepted exactly when the alignment is left, center or right; otherwise the error names the alignment |
| WrapBase.JoinPath | back/internal/wrap/wrap.go:163-173 | one trailing dot of the first path and one leading dot of the second merge into a single dot; if neither has one a dot is inserted; never empty |
| WrapBase.JoinPathExamples | back/internal/wrap/wrap.go:163-173 | "a."+".b", "a"+"b", "a."+"b" and "a"+".b" all give "a.b", "" + "x" gives ".x"; further dots are kept: "a.."+"b" gives "a..b" and "a.."+"..b" gives "a...b" |
| StringField.Fixed | back/internal/wrap/field_string.go:23-79 | a string variant in groomed form has no grooming problem |
| StringField.Defaulted | back/internal/wrap/field_string.go:23-84 | the defaulted record is in groomed form exactly when grooming reports no problem; a groomed record is left unchanged |
| StringField.Groom | back/internal/wrap/field_string.go:23-79 | reports exactly the first failing check (outer UI component, in-list UI component, alignment); on success returns the defaulted record |
| StringField.GroomInlist | back/internal/wrap/field_string.go:47-77 | the in-list block: an invalid UI component is reported before an invalid alignment; on success every empty property is defaulted from the outer field |
| BooleanField.Fixed | back/internal/wrap/field_boolean.go:16-42 | a boolean variant in groomed form has no grooming problem |
| BooleanField.Defaulted | back/internal/wrap/field_boolean.go:16-46 | the defaulted record is in groomed form exactly when grooming reports no problem; a groomed record is left unchanged |
| BooleanField.Groom | back/internal/wrap/field_boolean.go:16-42 | reports exactly the first invalid UI component (outer, then in-list); on success returns the defaulted record |
| IntegerField.Fixed | back/internal/wrap/field_integer.go:18-51 | an integer variant in groomed form has no grooming problem |
| IntegerField.Defaulted | back/internal/wrap/field_integer.go:18-55 | the defaulted record is in groomed form exactly when grooming reports no problem; a groomed record is left unchanged |
| IntegerField.Groom | back/internal/wrap/field_integer.go:18-51 | reports exactly the first failing check; on success returns the defaulted record |
| NumberField.Fixed | back/internal/wrap/field_number.go:20-59 | a number variant in groomed form has no grooming problem |
| NumberField.Defaulted | back/internal/wrap/field_number.go:20-63 | the defaulted record is in groomed form exactly when grooming reports no problem; a groomed record is left unchanged |
| NumberField.Groom | back/internal/wrap/field_number.go:20-59 | reports exactly the first failing check; on success returns the defaulted record |
| DurationField.Fixed | back/internal/wrap/field_duration.go:20-53 | a duration variant in groomed form has no grooming problem |
| DurationField.Defaulted | back/internal/wrap/field_duration.go:20-57 | the defaulted record is in groomed form exactly when grooming reports no problem; a groomed record is left unchanged |
| DurationField.Groom | back/internal/wrap/field_duration.go:20-53 | reports exactly the first failing check; on success returns the defaulted record |
| WrapTree.KindCount | back/internal/wrap/field.go:71-144 | zero exactly when no non-string variant is present |
| WrapTree.FirstKind | back/internal/wrap/field.go:71-144 | the name of the first variant present is empty exactly when there is none |
| WrapTree.GroomedFieldsShape | back/internal/wrap/field.go:30-52 | every groomed field keeps its name, tooltip, validation, required flag, condition and readOnly expression, records the parent as its provider, keeps a set label, and has an empty label only when its name gives none |
| WrapTree.GroomType | back/internal/wrap/field.go:71-144 | reports exactly the first failure: of the first variant present, then a conflict naming the first two variants, then the string variant; on success returns the groomed record, with an empty string variant added when there was no variant |
| WrapTree.GroomVariants | back/internal/wrap/field.go:71-132 | the six non-string variants in order: succeeds exactly when the first present one has no problem and no second one is present; on success returns them groomed and the first one's name |
| WrapTree.GroomArray | back/internal/wrap/field_array.go:21-58 | reports exactly the array's first failure (nil item validation dereferenced, item type, list-view alignment); on success returns the groomed array |
| WrapTree.GroomObject | back/internal/wrap/field_object.go:26-64 | reports exactly the object's first failure (children, card component, list-view component, alignment); on success returns the groomed object, and every child records the object as its path provider |
| WrapTree.GroomFields | back/internal/wrap/field_object.go:30-35 | grooms the fields in order, stops at the first failure and names its field; on success every field is groomed |
| WrapTree.GroomField | back/internal/wrap/field.go:30-59 | records the provider in every case; reports exactly the field's first failure (name, validation, condition, readOnly, variants); on success returns the groomed field, whose default value path is joinPath(provider path, name) |
| WrapTree.FieldsProblemNone | back/internal/wrap/field_object.go:30-35 | the field loop reports no problem exactly when no field has one |
| WrapTree.TypeGroomedIsFixed | back/internal/wrap/field.go:71-144 | grooming a variant record succeeds exactly when its result is in groomed form |
| WrapTree.ArrayGroomedIsFixed | back/internal/wrap/field_array.go:21-58 | grooming an array succeeds exactly when its result is in groomed form |
| WrapTree.ObjectGroomedIsFixed | back/internal/wrap/field_object.go:26-64 | grooming an object succeeds exactly when its result is in groomed form |
| WrapTree.FieldsGroomedIsFixed | back/internal/wrap/field_object.go:30-35 | grooming a sequence of fields succeeds exactly when every groomed field is in groomed form |
| WrapTree.FieldGroomedIsFixed | back/internal/wrap/field.go:30-59 | grooming a field succeeds exactly when its result is in groomed form |
| WrapTree.TypeFixedIsGroomed | back/internal/wrap/field.go:71-144 | grooming a variant record in groomed form leaves it unchanged |
| WrapTree.ArrayFixedIsGroomed | back/internal/wrap/field_array.go:21-58 | grooming an array in groomed form leaves it unchanged |
| WrapTree.ObjectFixedIsGroomed | back/internal/wrap/field_object.go:26-64 | grooming an object in groomed form leaves it unchanged |
| WrapTree.FieldsFixedIsGroomed | back/internal/wrap/field_object.go:30-35 | grooming fields in groomed form leaves them unchanged |
| WrapTree.FieldFixedIsGroomed | back/internal/wrap/field.go:30-59 | grooming a field in groomed form leaves it unchanged |
| WrapTree.FieldsGroomOutcome | back/internal/wrap/wrap.go:111-117 | the field loop: success gives groomed fields; fields in groomed form groom without error and unchanged |
| WrapTree.TypeFixedHasNoProblem | back/internal/wrap/field.go:71-144 | a variant record in groomed form has no grooming problem |
| WrapTree.FieldsFixedHaveNoProblem | back/internal/wrap/field_object.go:30-35 | fields in groomed form have no grooming problem |
| WrapTree.Wrap.GroomHeader | back/internal/wrap/wrap.go:74-109 | reports exactly the first failing header check in the source's order; derives an empty label from the name once the identity checks pass; changes nothing else |
| WrapTree.Wrap.Groom | back/internal/wrap/wrap.go:74-118 | reports exactly the document's first failure; on success the fields are groomed under the document and the whole document is in groomed form; every field records the document's value path as its provider; a document in groomed form is left unchanged; only the label and the fields change |
| LabelizeFixpoint.ToUpperIdempotent | back/internal/misc/labelize.go:32 | upper-casing leaves no lower-case letter, so doing it again changes nothing; it undoes lower-casing |
| LabelizeFixpoint.ToLowerIdempotent | back/internal/misc/labelize.go:34 | lower-casing leaves no capital, so doing it again changes nothing; it undoes upper-casing |
| Labelize.Title | back/internal/misc/labelize.go:40 | the length is kept and the first character is upper-cased |
| Labelize.TitleAfter | back/internal/misc/labelize.go:40 | a character is upper-cased exactly when the one before it is a separator (the start counts as a space); the length is kept |
| Labelize.UpperRun | back/internal/misc/labelize.go:16-17 | the run of capitals at a position is maximal: every character in it is a capital and the next one is not |
| Labelize.WordLen | back/internal/misc/labelize.go:24 | the leading word of a string is maximal: no space inside it, a space or the end after it |
| LabelizeFixpoint.CaseWordsIdempotent | back/internal/misc/labelize.go:30-36 | casing the words a second time changes none of them |
| LabelizeFixpoint.CaseWordIdempotent | back/internal/misc/labelize.go:31-35 | casing one word a second time changes nothing |
| Labelize.Labelize | back/internal/misc/labelize.go:9-44 | the loop over the words computes the label defined by the two passes, the split into words, the casing and the title of the first word |
| LabelizeFixpoint.IsAcronymIff | back/internal/misc/labelize.go:47-49 | a word is an acronym exactly when it is longer than one byte and has no lower-case letter |
| LabelizeProps.CamelSplitOnlyInsertsSpaces | back/internal/misc/labelize.go:16-17 | the camel-case pass only inserts spaces: with all spaces removed, its output equals its input |
| LabelizeProps.CamelSplitCopies | back/internal/misc/labelize.go:16-17 | where the camel-case pattern does not match, the pass copies the input unchanged |
| LabelizeProps.UpperRunIs | back/internal/misc/labelize.go:16 | a maximal run of capitals of length n is the run the greedy `[A-Z]+` matches |
| LabelizeProps.ReplaceDelimsRemovesDelims | back/internal/misc/labelize.go:20-21 | no `_` or `-` survives the delimiter pass |
| LabelizeProps.ReplaceDelimsCopies | back/internal/misc/labelize.go:20-21 | input without delimiters passes through unchanged |
| LabelizeProps.ReplaceDelimsRun | back/internal/misc/labelize.go:20-21 | a whole run of delimiters becomes one space |
| LabelizeProps.ReplaceDelimsCopiesUpTo | back/internal/misc/labelize.go:20-21 | a stretch without delimiters is copied |
| LabelizeProps.FieldsAreWords | back/internal/misc/labelize.go:24 | every word strings.Fields returns is non-empty, has no white space, and is made of characters of its input |
| LabelizeProps.FieldsOfJoin | back/internal/misc/labelize.go:24-43 | splitting a space-joined sequence of words gives the words back |
| LabelizeProps.JoinWellSpaced | back/internal/misc/labelize.go:43 | joined words have no leading or trailing space and single spaces between words |
| LabelizeProps.TitleOfPlainWord | back/internal/misc/labelize.go:38-41 | a word without separators is only capitalised in its first letter |
| LabelizeProps.CaseWordIsWord | back/internal/misc/labelize.go:30-36 | casing a word keeps it a word without delimiters |
| LabelizeProps.TitleIsWord | back/internal/misc/labelize.go:40 | capitalising a word keeps it a word without delimiters |
| LabelizeProps.WordsAreClean | back/internal/misc/labelize.go:14-24 | every word after the two passes is a non-empty word without delimiters |
| LabelizeProps.LabelShape | back/internal/misc/labelize.go:9-44 | a label contains no `_` or `-`, and its words are separated by single spaces with no space at either end |
| LabelizeProps.LabelWords | back/internal/misc/labelize.go:29-43 | the words of the label are the words of the input: acronyms kept, the others lower-cased, the first one titled unless it is an acronym |
| LabelizeProps.LowerNotAcronym | back/internal/misc/labelize.go:47-49 | a word that is not an acronym is not one after lower-casing |
| LabelizeProps.Utf8LenCaseMap | back/internal/misc/labelize.go:47-49 | case mapping keeps the byte length that isAcronym tests |
| LabelizeProps.JoinNoDelims | back/internal/misc/labelize.go:43 | joining words without delimiters adds none |
| LabelizeFixpoint.NoMatchCopies | back/internal/misc/labelize.go:16-17 | where neither alternative of the camel-case pattern matches anywhere, the pass returns its input |
| LabelizeFixpoint.CamelSplitDigitsApart | back/internal/misc/labelize.go:16-17 | after the camel-case pass no digit is directly followed by a capital |
| LabelizeFixpoint.ReplaceDelimsDigitsApart | back/internal/misc/labelize.go:20-21 | the delimiter pass never puts a capital directly after a digit |
| LabelizeFixpoint.WordsDigitsApart | back/internal/misc/labelize.go:14-24 | no word after the two passes has a digit directly followed by a capital |
| LabelizeFixpoint.LowerOfTitle | back/internal/misc/labelize.go:34-40 | lower-casing a titled lower-case word gives the word back |
| LabelizeFixpoint.TitleNoMatch | back/internal/misc/labelize.go:40 | a titled lower-case word has capitals only after separators, so the camel-case pattern matches nowhere in it |
| LabelizeFixpoint.SpaceJoinNoMatch | back/internal/misc/labelize.go:43 | joining two words with a space creates no match of the camel-case pattern |
| LabelizeFixpoint.FinishIdempotent | back/internal/misc/labelize.go:29-41 | casing the words and titling the first non-acronym a second time changes nothing |
| LabelizeFixpoint.WordsOfCleanJoin | back/internal/misc/labelize.go:14-24 | the two passes and the split give back words that were joined by spaces when they have no delimiters and no camel-case match |
| LabelizeFixpoint.LabelIdempotent | back/internal/misc/labelize.go:9-44 | a label is its own label: Labelize applied to its own result returns that result |
| LabelizeFixpoint.AllSeparatorsEmpty | back/internal/misc/labelize.go:20-27 | an identifier made only of `_`, `-` and white space gives the empty label |
| LabelizeFixpoint.LabelOfUnderscores | back/internal/misc/labelize.go:20-27 | "___" gives the empty label |
| LabelizeExamples.CamelSplitXABc | back/internal/misc/labelize.go:16-17 | after a match the scan resumes behind it: "xABc" becomes "x ABc" |
| LabelizeExamples.CamelSplitNoOverlap | back/internal/misc/labelize.go:16-17 | "xABc" becomes "x ABc": matches do not overlap, so "ABc" is never matched as an acronym |
| LabelizeExamples.LabelHTTPRequestStatus | back/internal/misc/labelize_test.go:10 | "HTTPRequestStatus" gives "HTTP request status" |
| LabelizeExamples.LabelAPIClient | back/internal/misc/labelize_test.go:11 | "APIClient" gives "API client" |
| LabelizeExamples.LabelGetHTTPServer | back/internal/misc/labelize_test.go:12 | "getHTTPServer" gives "Get HTTP server" |
| LabelizeExamples.LabelHelloworld | back/internal/misc/labelize_test.go:13 | "hello_world" gives "Hello world" |
| LabelizeExamples.LabelMyXMLparser | back/internal/misc/labelize_test.go:14 | "my-XML-parser" gives "My XML parser" |
| LabelizeExamples.LabelParseJSONFile | back/internal/misc/labelize_test.go:15 | "ParseJSONFile" gives "Parse JSON file" |
| LabelizeExamples.LabelSimpleTest | back/internal/misc/labelize_test.go:16 | "simpleTest" gives "Simple test" |
| LabelizeExamples.LabelJSON | back/internal/misc/labelize_test.go:17 | "JSON" gives "JSON" |
| LabelizeExamples.LabelEmpty | back/internal/misc/labelize_test.go:18 | "" gives "" |
| LabelizeExamples.LabelHTTPServer | back/internal/misc/labelize_test.go:19 | "___HTTP__Server" gives "HTTP server" |
| LabelizeExamples.LabelXMLHTTPRequest | back/internal/misc/labelize_test.go:20 | "XMLHTTPRequest" gives "XMLHTTP request" |
| LabelizeExamples.LabelUserID | back/internal/misc/labelize_test.go:21 | "UserID" gives "User ID" |
| LabelizeExamples.LabelFromWords | back/internal/misc/labelize.go:29-43 | the label is assembled from the cased words, with the first one titled unless it is an acronym |
| Logging.IsPrintable | back/internal/httpsrv/logging.go:256-270 | returns true exactly when the body is empty or at least four fifths of its bytes are printable |
| Logging.CountsSplit | back/internal/httpsrv/logging.go:261-266 | every byte is either printable or binary |
| Logging.PrintableCountCons | back/internal/httpsrv/logging.go:261-266 | the printable count can be taken from the front |
| Logging.MostlyPrintableIffFewBinary | back/internal/httpsrv/logging.go:268-269 | the ratio test holds exactly when at most one byte in five is not printable |
| Logging.TextIsPrintable | back/internal/httpsrv/logging.go:256-270 | a body of printable bytes only is printable |
| Logging.GetSafeBodyString | back/internal/httpsrv/logging.go:236-253 | empty body gives empty text, a binary body the binary marker, a long body its first 192 bytes and the truncation marker, any other body itself; the result is never longer than 192 bytes plus the marker |
| Logging.ResponseWriter.constructor | back/internal/httpsrv/logging.go:42-48 | a new writer has status 200, an empty captured body and size 0 |
| Logging.ResponseWriter.Write | back/internal/httpsrv/logging.go:51-62 | returns what the wrapped writer returned; adds the accepted bytes to the size; captures them while the buffer is under 4096 bytes; the capture stays a prefix of all accepted bytes |
| Logging.ResponseWriter.WriteHeader | back/internal/httpsrv/logging.go:65-68 | records the status code and changes nothing else |

## Left out

- `load.go` (reading and decoding a Wrap from a file) is not part of this model: it is file I/O and YAML decoding.
- `LoggingMiddleware` and `formatDuration` are not part of this model: they handle requests, clocks, a global counter and log output.
- Logging.ResponseWriter.Write: the wrapped `http.ResponseWriter` is not modelled. Each call is given the byte count and the error the wrapped writer returned. The ghost `accepted` sequence records the bytes passed on.
- Logging.ResponseWriter.WriteHeader: forwarding the code to the wrapped writer is not modelled.
- Logging.ResponseWriter.Write: the size is an unbounded integer, so the int64 overflow of the source is not modelled (it needs more than 2^63 bytes).
- Logging.IsPrintable: the float64 comparison `count/len >= 0.8` is modelled over exact rationals as `5 * count >= 4 * len`; floating-point rounding is not modelled. The two agree while the body is shorter than about 2^53 / 5 bytes: then a ratio below 4/5 stays more than one float64 step below 0.8, and a ratio of exactly 4/5 rounds to the constant 0.8 itself.
- Logging.GetSafeBodyString: it returns bytes. The conversion to a Go string is the identity on bytes.
- WrapBase.ValidCel: the source's CEL check is a placeholder that accepts everything, and so is the model. A real CEL compiler is not modelled.
- Labelize: case mapping (`strings.ToUpper`, `ToLower`, `Title`) is modelled for ASCII letters only. Other characters keep their case. LabelizeFixpoint.LabelIdempotent is proved for this case mapping; full Unicode case mapping is not covered by it. Unicode white space and the byte length used by `isAcronym` are modelled exactly.
- Labelize: the two regular expressions are modelled as explicit left-to-right scans (leftmost-first, non-overlapping matches). This is not a general regular-expression engine.
- WrapTree.GroomType, WrapTree.GroomArray, WrapTree.GroomObject, WrapTree.GroomField: the nodes below the document are modelled as values. Each groom method returns the groomed node, and the caller stores it back. The in-place update of the source is not captured as such. No aliasing is lost, because nodes are never shared.
- WrapTree.GroomType, WrapTree.GroomArray, WrapTree.GroomObject, WrapTree.GroomField, WrapTree.GroomFields, WrapTree.Wrap.Groom, StringField.Groom: the state after a failed groom is not specified. In the source, the fields before the failing one are already groomed in place at that point. The only caller drops the document on an error.
- WrapTree: a field's `valuePathProvider` is recorded by the value path it provides. The value path is all that is ever asked of it.
- WrapTree.GroomFields: the loop over the children is one method shared by `FieldObject.groom` and `Wrap.Groom`. The header checks of `Wrap.Groom` are the method GroomHeader.
- WrapTree: properties grooming never reads or sets are carried unchanged. Examples are the Kubernetes source selector, the operations, the template, descriptions and tooltips.
- NumberField: float64 defaults and enumerations are carried as opaque 64-bit patterns, never computed with. Grooming does not read them.
- DurationField: the `time.Duration` default is carried as an integer count of nanoseconds. Grooming does not read it.
