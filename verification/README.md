# EditorJS validation rule — a Dafny model

This project models `EditorJsRule`, the Laravel validation rule of the
laravel-editorjs package. The rule accepts the JSON document that the EditorJS
rich-text editor produces. It checks the submitted value in a fixed order. The
value must be a string. It must be valid JSON. It must have a `blocks` array.
The EditorJS library must then accept it. The first check that fails reports
one message through Laravel's `$fail` closure, and no later check runs.

When the library rejects the document, the rule reads the library's error
text. It matches the text against three shapes, in order:
``Tool `X` not found``, ``Not found required param `X` `` and
``Found extra param `X` ``. It then builds a user-facing message. When the
document has a block to blame, the message names it: for an unknown tool, the
first block of that type; for a parameter, the first block whose `data` has
that key, with its type, or `unknown` when the block has no type. Error text
of any other shape is passed through unchanged.

Files:

- `wrappers.dfy`: `Option`, for PHP's "value or `null`".
- `decimal.dfy`: how PHP string interpolation writes a block index in decimal.
- `pattern.dfy`: `preg_match` for patterns of the shape `/prefix(.+)suffix/`.
  It finds the leftmost start, and there the longest capture, as a
  backtracking matcher with a greedy `.+` does.
- `editorjs_rule.dfy`: blocks, the two first-match searches (as recursive
  functions, and as the source's `foreach` scans written as loop methods),
  the classifier, the message builders, the validation ladder (`Verdict`),
  and the rule's methods. The methods report through `FailCallback`, a class
  that records every message `$fail` receives.

`json_decode` and the EditorJS library are parameters of the model:
`decode: string -> Decoded` and `library: string -> Outcome`. Both are applied
to the raw submitted text, as in the source. `decode` says whether the text is
malformed, and whether the decoded value has a `blocks` array (and which).
`library` says whether the library accepts the text or throws an
`EditorJSException`, and with what message. That the rule does not consult one
of them is stated as: the verdict is the same for any two choices of it.

## Model

| member | source | states |
|---|---|---|
| `Decimal.NatToString` | src/Rules/EditorJsRule.php:60-61 | a block index is written as a non-empty string of decimal digits, without a leading zero |
| `Decimal.DigitsValueOfNatToString` | src/Rules/EditorJsRule.php:60-61 | reading the written index back as a decimal number gives the index |
| `Decimal.NatToStringInjective` | src/Rules/EditorJsRule.php:69 | two different block indices are never written the same way, so a message names exactly one block |
| `Pattern.MatchFrom` | src/Rules/EditorJsRule.php:56 | the match found is a real occurrence of prefix, non-empty text and suffix; no match starts further left; at that start no later suffix exists (greedy `.+`); it finds nothing exactly when the pattern occurs nowhere |
| `Pattern.Capture` | src/Rules/EditorJsRule.php:56-57 | `preg_match` succeeds exactly when the pattern occurs somewhere in the message; then `$matches[1]` is non-empty and prefix, capture and suffix occur together in the message |
| `EditorJsRule.FirstOfType` | src/Rules/EditorJsRule.php:97-105 | gives the smallest index whose block has its type set and equal to the target; gives none exactly when no block has that type |
| `EditorJsRule.ParameterLocation` | src/Rules/EditorJsRule.php:114-125 | gives the smallest index whose block's `data` has the key, paired with that block's type or `unknown` when unset; gives none exactly when no block's `data` has the key |
| `EditorJsRule.FindBlockIndex` | src/Rules/EditorJsRule.php:97-105 | the `foreach` scan with early return computes the first block of the type, as `FirstOfType` characterises it |
| `EditorJsRule.FindParameterLocation` | src/Rules/EditorJsRule.php:114-125 | the `foreach` scan with early return computes the first block with the key and its type, as `ParameterLocation` characterises it |
| `EditorJsRule.UnsupportedToolMessage` | src/Rules/EditorJsRule.php:60-61 | the message starts with "Block type 'X' is not supported"; it is exactly that when no block has type X; otherwise it adds " (found in block i)" for the first block i of type X |
| `EditorJsRule.ParameterMessage` | src/Rules/EditorJsRule.php:67-70 | the message starts with the lead and the quoted parameter; it is exactly that when no block's `data` has the key; otherwise it adds " in block i (type: t)" for the first such block i and its type t (`unknown` when unset) |
| `EditorJsRule.Classify` | src/Rules/EditorJsRule.php:56-85 | an unknown tool is reported exactly when the tool pattern matches; a missing parameter exactly when the tool pattern does not match and the required-parameter pattern does; an extra parameter exactly when neither earlier pattern matches and the extra-parameter pattern does; each captured name is non-empty and occurs framed by its pattern in the text |
| `EditorJsRule.ExceptionMessage` | src/Rules/EditorJsRule.php:52-88 | each recognised kind is turned into its own message, "Missing required parameter" or "Unexpected parameter" for the two parameter kinds; when none of the three patterns matches, the raw message is reported unchanged |
| `EditorJsRule.CaptureExample` | src/Rules/EditorJsRule.php:56-57 | from the text "Tool `unknown_tool` not found" the captured tool name is `unknown_tool` |
| `EditorJsRule.UnsupportedToolMessageExample` | src/Rules/EditorJsRule.php:58-61 | for a single block of type `unknown_tool`, the unsupported-tool message names block 0 |
| `EditorJsRule.UnknownToolExample` | src/Rules/EditorJsRule.php:56-61 | a document whose only block has the unknown type `unknown_tool` gets "Block type 'unknown_tool' is not supported (found in block 0)" |
| `EditorJsRule.RecognisedKindsDistinct` | src/Rules/EditorJsRule.php:60-83 | two library errors of different recognised kinds never produce the same message |
| `EditorJsRule.Verdict` | src/Rules/EditorJsRule.php:17-43 | a non-string fails with "The :attribute must be a string."; malformed JSON fails with "The :attribute must be a valid JSON string."; a missing or non-array `blocks` fails with "The :attribute must contain a blocks array."; a library rejection fails with the translated message; the value passes exactly when it is a string with a `blocks` array that the library accepts |
| `EditorJsRule.DecoderConsultedOnlyForStrings` | src/Rules/EditorJsRule.php:19-25 | the verdict on a non-string does not depend on the JSON decoder, and on a string it depends only on what the decoder makes of that string |
| `EditorJsRule.LibraryConsultedOnlyWithBlocks` | src/Rules/EditorJsRule.php:25-38 | the verdict does not depend on the library unless the value is a string whose decoded form has a `blocks` array, and then only on what the library makes of that string |
| `EditorJsRule.Reported` | src/Rules/EditorJsRule.php:17-43 | a verdict becomes at most one message: none exactly when the value passes |
| `EditorJsRule.FailCallback.constructor` | src/Rules/EditorJsRule.php:15 | a fresh `$fail` closure has received no message |
| `EditorJsRule.FailCallback.Fail` | src/Rules/EditorJsRule.php:50 | a call of `$fail` appends its message and changes nothing else |
| `EditorJsRule.HandleEditorJSException` | src/Rules/EditorJsRule.php:52-88 | tries the three patterns in order and calls `$fail` exactly once, with the message `ExceptionMessage` gives |
| `EditorJsRule.Validate` | src/Rules/EditorJsRule.php:17-43 | calls `$fail` at most once: with the verdict's message when the value fails, and not at all when it passes |

## Left out

- The renderer and `isValid` in `src/LaravelEditorJs.php` are not part of this model. They are glue over the EditorJS library and Laravel's view system and validator.
- `json_decode` and `json_last_error` are not modelled. They are the parameter `decode`. Its result only says whether decoding failed and whether `blocks` is an array.
- The EditorJS library's schema checking and `config('laravel_editorjs.config')` are not modelled. Together they are the parameter `library`, which sees the raw text.
- An exception other than `EditorJSException` escaping the library is not modelled. The source does not catch it either.
- Pattern.Capture: it does not model that `.` in PCRE does not match a newline. For error text containing a newline, the capture can differ from `preg_match`'s.
- Block indices are positions in the `blocks` sequence. A `blocks` value that is a JSON object (an associative PHP array with non-list keys) is not modelled; the source would report its keys as indices.
- A block's `type` is either unset (absent or `null`) or a string. A `type` of another JSON kind, such as a number, is not modelled. A block that is not a JSON object behaves as a block with neither `type` nor `data` set, and is written that way.
- A block's `data` is either unset or a JSON object, keyed by its key strings. `data` of another kind is not modelled; for a scalar the source would raise a `TypeError` in `array_key_exists`.
- The `$attribute` parameter of `validate` is not modelled. The `:attribute` placeholder in the messages is left for Laravel to translate and kept literally.
- JSON numbers in block data are integers in the model. The rule never inspects the data values, only the keys.
