# BedrockSmith log-record model

BedrockSmith (`app.py`) is a one-page viewer for Amazon Bedrock model-invocation
logs. It fetches log events from CloudWatch Logs and parses each event's JSON
record with `split_event`. That yields the inline input body or the S3 pointer
to it, the output body, a metadata dict and the error code. For the selected
record it draws:

- a row of coloured tags (`write_tag`);
- the system prompt (`write_system`);
- one expander per text block of the input and output conversations
  (`write_input_message`, `write_output_message`).

This project models that logic in Dafny, together with the Python semantics it
relies on:

- `in` on a dict, a list or a str;
- dict subscripting, with its `KeyError`;
- iteration over a dict, a list or a str;
- truthiness;
- the `TypeError` and `AttributeError` that wrong-typed values raise.

Modules, one per concern:

- `Wrappers`: `Option` and `Result`.
- `PyJson`: a decoded JSON value (`Json`; `JNull` also stands for Python's
  `None`). It defines dict lookup, where the last duplicate key wins as with
  `json.loads`, and the Python operations the code applies to such values, each
  with its failure path.
- `EventParser`: `split_event`.
  - `Split` is the specification function; `SplitEvent` and its three
    `Add…` methods are the statement-by-statement form, each proved equal to
    the matching function.
  - The metadata dict is a `Metadata` value: its keys in insertion order, and
    a map from each key to its value. Keys are the eight keys `split_event`
    ever writes (`MetaKey`).
  - The lemmas give the dict's exact key order and the value of every key, in
    terms of the record.
- `TagBuilder`: the labels and colours of `write_tag`, as a function (`Tags`)
  and a method building the two lists (`BuildTags`). The lemmas say when a
  record parsed by `split_event` gets its tags.
- `MessageText`: the text blocks the two message writers show.
  - The lists are kept as they are collected, as (role, text) pairs, rather
    than rendered.
  - `ExpectedTexts` is a reference definition: message by message, then block
    by block, every block with a `"text"` member.
  - The functions, and the loop methods proved equal to them, are shown to
    produce exactly `ExpectedTexts` whenever they do not raise.
  - `write_system` is the function `SystemText`.
- `Settings`: the `time_range` choices of the sidebar and the lookup of the
  selected choice.

Four details of the code matter for the model:

- The output metadata is taken when the output body is *truthy*
  (`if output_body_json:`), not merely present. An empty output object
  therefore gets the zero usage and latency.
- The request fields are copied only from a *truthy* inline input body.
- `write_system` tests `"system" in body` but then reads the module-level
  `input_body_json`. Its only call passes `input_body_json` itself
  (app.py:295), so the model reads `body` throughout.
- An object record whose `input` and `output` members are objects or absent,
  but which lacks `timestamp`, `modelId` or `operation`, makes `split_event`
  raise a `KeyError`. It is a failure here, not a record with absent fields.

## Model

| member | source | states |
|---|---|---|
| PyJson.Contains | app.py:37-38 | `k in x` is defined exactly for a dict, a list or a str (TypeError otherwise); on a dict it is membership of the key |
| PyJson.Subscript | app.py:48-50 | `x[k]` succeeds exactly when x is a dict holding k, with that key's value; a dict without k raises KeyError(k) |
| PyJson.Iterate | app.py:130-133 | `for v in x` is defined exactly on a list, dict or str; it visits a list's items, and a str or dict yields only str values (characters, keys) |
| PyJson.LenIsZero | app.py:113 | `len(x) == 0` is defined for a list, dict or str and agrees with truthiness |
| PyJson.First | app.py:115-116 | `x[0]` succeeds exactly on a non-empty list or str, and is a list's first item; a dict raises KeyError(0) |
| EventParser.Store | app.py:48-50 | `d[k] = v` makes k map to v, leaves every other key alone, keeps the dict valid and appends a new key at the end of the key order |
| EventParser.InputBodies | app.py:37-41 | the inline body is `input.inputBodyJson` when present; otherwise the S3 pointer is `input.inputBodyS3Path`; never both; succeeds for an object whose `input` is an object or absent |
| EventParser.OutputBody | app.py:43-45 | the output body is `output.outputBodyJson`, None when absent; succeeds for an object whose `output` is an object or absent |
| EventParser.StoreRequired | app.py:48-50 | succeeds exactly when timestamp, modelId and operation are all present, and otherwise fails: KeyError for the first missing one in an object record, TypeError for any other value; copies them verbatim, touches no other key, appends the three keys in that order |
| EventParser.StoreOutputFields | app.py:52-55 | succeeds exactly when stopReason, usage and metrics.latencyMs are present; copies them, touches no other key, appends them in order |
| EventParser.StoreDefaultUsage | app.py:56-59 | stores zero token counts and zero latency, touching no other key, appending usage then latencyMs |
| EventParser.StoreOutputMetadata | app.py:52-59 | a truthy output body contributes its three fields (and fails without them); any other one contributes the zero usage and latency and no stop reason; the key order either way |
| EventParser.StoreIfPresent | app.py:62-68 | one `if name in body: metadata[name] = body[name]`: the value when the body has the member, the old value otherwise, nothing else touched, never raises on an object |
| EventParser.StoreInputMetadata | app.py:61-68 | the request fields of a truthy input body when present, nothing from a falsy one; every other key kept; never raises on an object |
| EventParser.RecordMetadata | app.py:47-68 | fails when a required member is missing (KeyError for the first one in an object record) or when a truthy output body lacks a field; succeeds when all are there and a truthy inline body is an object |
| EventParser.RecordMetadataValid | app.py:32-68 | the metadata built from the empty dict is a dict: each key once, exactly the keys with values |
| EventParser.RecordMetadataKeys | app.py:47-68 | the metadata keys are, in order: timestamp, modelId, operation, then stopReason only for a truthy output body, then usage, latencyMs, then each request field the truthy inline body has |
| EventParser.RecordMetadataValues | app.py:47-68 | the value of each of the eight keys, in terms of the record, the inline body and the output body |
| EventParser.OutputInputKeys | app.py:52-68 | the keys the output and input sections append to a dict lacking all of them |
| EventParser.OutputValues | app.py:52-59 | the stop reason, usage and latency the output section leaves, untouched by the input section |
| EventParser.InputValues | app.py:61-68 | the request fields the input section leaves in a dict that had none |
| EventParser.OutputInputKeep | app.py:52-68 | the output and input sections keep every key other than their five |
| EventParser.RequiredOnly | app.py:32-50 | after the required members the dict has exactly their three keys |
| EventParser.Split | app.py:18-73 | the five results of split_event in terms of the record: inline body preferred over the S3 pointer, never both; the output body; the metadata as RecordMetadata builds it; the error code or None; KeyError for the first missing required member of a record whose sections are readable, and failure on an incomplete truthy output; success on every well-formed record |
| EventParser.SplitMetadata | app.py:47-68 | a parsed record's metadata always holds usage and latency (real or zero); holds a request field exactly when the truthy inline body has it, and none for an S3-pointer input |
| EventParser.AddRequired | app.py:48-50 | the three assignments equal StoreRequired |
| EventParser.AddOutputMetadata | app.py:52-59 | the `if output_body_json:` section equals StoreOutputMetadata |
| EventParser.AddInputMetadata | app.py:61-68 | the `if input_body_json:` section equals StoreInputMetadata |
| EventParser.SplitEvent | app.py:29-73 | split_event step by step equals Split on the decoded record, and a DecodeError when the message is not JSON |
| TagBuilder.MetaSubscript | app.py:85-88 | `metadata[k]` is the stored value, or KeyError(k) |
| TagBuilder.LatencyValue | app.py:86 | `latencyMs / 1000` succeeds on a bool (0 or 1) and on an int whose quotient is within the float range; a larger int raises OverflowError, anything else TypeError |
| TagBuilder.Tags | app.py:84-99 | the tag row exists exactly when the metadata is showable (model id, operation, usage with totalTokens, a latency that divides); it has model, latency, total tokens and operation in blue, green, orange and gray, plus a red error tag exactly when the error code is truthy; both lists have equal length |
| TagBuilder.BuildTags | app.py:84-99 | building the two lists and appending the error entry equals Tags |
| TagBuilder.ZeroUsageTotal | app.py:58 | the substituted usage has zero total tokens |
| TagBuilder.TagsOfDefaults | app.py:84-99 | metadata with the substituted usage and latency always gets its tags, showing 0 latency and 0 tokens |
| TagBuilder.TagsWithoutOutput | app.py:56-59 | every parsed record without a truthy output body gets its tags, with 0 latency and 0 tokens |
| TagBuilder.TagsWithOutput | app.py:52-55 | a parsed record with a truthy output body gets its tags exactly when its latency is a bool or an int whose quotient by 1000 is a float, and its usage has totalTokens |
| TagBuilder.ErrorTagOfRecord | app.py:95-97 | the row of a parsed record has the fifth, red error tag exactly when the record's own errorCode is truthy |
| MessageText.RoleName | app.py:135 | `role.upper()` succeeds exactly on a str (AttributeError otherwise); the name is the role's text |
| MessageText.Concat | app.py:130-136 | texts collected in order; the first failure stops the collection |
| MessageText.TextsOfStrings | app.py:133-134 | blocks that are str values (the keys of a dict content, the characters of a str content) contain no text |
| MessageText.BlocksShowableStep | app.py:133-134 | the inner loop goes through the first block and then the rest |
| MessageText.BlockText | app.py:134-136 | one block: raises exactly when `"text" in c` raises, or when it holds and the block is not a dict or the role not a str; otherwise the block's (role, text) pair, or nothing for a block without a text |
| MessageText.BlockTexts | app.py:133-136 | the inner loop succeeds exactly when no block raises; its pairs are the blocks' texts in order, each with the role |
| MessageText.MessageTexts | app.py:131-136 | one message's pairs are its content blocks' texts labelled with its role |
| MessageText.MessagesTexts | app.py:130-136 | the pairs of a list of messages, when nothing raises, are ExpectedTexts |
| MessageText.InputTexts | app.py:128-136 | write_input_message shows ExpectedTexts of `body["messages"]`; nothing when it is an empty dict or str; TypeError when it is a non-empty dict or str, whose items have no `role` to read |
| MessageText.OutputTexts | app.py:146-153 | write_output_message shows the texts of `body["output"]["message"]` labelled with its role |
| MessageText.SystemText | app.py:111-118 | no system member means nothing shown; an empty list means nothing; otherwise the first block's text when it has one |
| MessageText.WellFormedMessageShows | app.py:131-136 | a message with a str role and a list of object blocks never raises |
| MessageText.WellFormedMessagesShow | app.py:130-136 | a list of well-formed messages shows exactly ExpectedTexts |
| MessageText.WellFormedOutputShows | app.py:146-153 | an output body whose `output.message` has a str role and a list of object blocks never raises and shows exactly that message's texts |
| MessageText.WellFormedInputShows | app.py:128-136 | an input body whose messages are well formed shows exactly ExpectedTexts |
| MessageText.CollectBlockTexts | app.py:133-136 | the `for c in content` loop equals BlockTexts |
| MessageText.CollectMessageTexts | app.py:131-136 | reading role and content and looping over the blocks equals MessageTexts |
| MessageText.InputTextBlocks | app.py:128-136 | the nested loops of write_input_message equal InputTexts |
| MessageText.OutputTextBlocks | app.py:146-153 | the steps of write_output_message equal OutputTexts |
| Settings.HoursIn | app.py:190 | `time_range[name]` has a value exactly when some choice has that name, and the value is that choice's hours |
| Settings.LookbackHours | app.py:190 | `time_range[select_range]` has a value exactly for the offered names, and it is between 1 and 96 hours |
| Settings.TimeRangeShape | app.py:161-168 | the six choices have distinct names, strictly increasing hours of at least one, and the fourth (the default) is 24 hours |
| Settings.OfferedLabelsResolve | app.py:178 | every name the select box offers resolves to its hours; the default resolves to 24 |

## Left out

- Fetching from CloudWatch Logs (boto3), the clock (`datetime.now`) and the time-window arithmetic (app.py:189-191, 193-211): external services and time are not modelled.
- `json.loads`: SplitEvent takes the decoded value, None standing for a message that is not valid JSON (DecodeError). JSON numbers are integers; floats are not modelled.
- Streamlit rendering (expanders, tabs, columns, the tag component, captions), session state and the list/detail selection logic: UI calls without logic of their own.
- The `sorted` call that orders the fetched events newest first (app.py:214-216): it orders what the fetch returns, which is not modelled.
- The sidebar listing (app.py:220-250): for each event it calls split_event and write_tag, which are modelled, and renders the results.
- The metadata panel loop (app.py:325-335) only renders each metadata entry by type: UI code.
- TagBuilder.Tags: the label text (emoji, the division of milliseconds by 1000 into seconds, float formatting) is not modelled. A label keeps the value it shows, and the latency stays in integer milliseconds.
- MessageText.RoleName: the result of `str.upper()` is not modelled, because Unicode case mapping is outside Dafny's strings. Only whether the call raises is kept, and the role keeps its spelling.
- MessageText.InputTexts and MessageText.OutputTexts: Python renders the blocks before an exception is raised. The model returns the failure alone, without the blocks already shown.
- MessageText.SystemText: reads `body` throughout. app.py reads the global `input_body_json` after checking `body`; the two are the same value at the only call.
- EventParser.Metadata holds only the eight keys split_event writes; a general string-keyed dict is not needed by the code.
