# Cape Town service-alerts bot, modelled in Dafny

This project models the logic of `service_alerts_bot.py`. The bot receives a batch of
City of Cape Town service alerts and posts one Mastodon toot per alert. For each alert it:

- looks up ready-made toot text at the alerts endpoint;
- otherwise cleans the alert dictionary and tries to build a prompt for a chat-completion service, which would be asked up to three times;
- posts the text with an attribution line that links back to the alert, or a fallback notice when there is no text.

As written, building the prompt always fails. `CHATGPT_TEMPLATE` has a `{toot_length}` field that the call at line 102 does not bind. The resulting KeyError is caught, so no request is ever made. An alert without looked-up text therefore either raises from the cleanup or is posted with the fallback notice. `Handler.GenerationNeverCallsApi` proves this.

The model has six modules, one file each:

| file | module | models |
|---|---|---|
| `wrappers.dfy` | `Wrappers` | `Option` and `Result` |
| `sast_time.dfy` | `SastTime` | `_convert_to_sast_str` |
| `template.dfy` | `Template` | `str.format` with keyword arguments, and the three templates |
| `cleanup.dfy` | `Cleanup` | the cleanup at the start of `_generate_toot_from_chatgpt` |
| `chatgpt.dfy` | `ChatGpt` | `_chatgpt_wrapper` |
| `handler.dfy` | `Handler` | the rest of `_generate_toot_from_chatgpt`, and the per-alert loop of `lambda_handler` |

**`SastTime`** models `_convert_to_sast_str`:

- `DateTime` values have a seconds-since-0001-01-01 reference `Instant`.
- `AddTwoHours` implements `+ timedelta(hours=2)` and is proved against `Instant`.
- A fixed-width parser and renderer are proved inverse to each other.
- `ConvertToSast` composes them.

**`Template`** models `str.format`:

- `Format` scans a template character by character: `{{` and `}}` are escapes, and `{name}` is a keyword field.
- `Piece`s give a template's reference meaning (`Fill`). `FormatSource` proves that `Format` agrees with that meaning.
- The three templates are written as pieces.

**`Cleanup`**:

- `CleanupSteps` is the reference function on the record.
- `Alert` is the dictionary object. Its `Sanitize` method runs the three mutating loops and is proved to equal `CleanupSteps`.
- `CleanupOutcome` states what the cleanup does in terms of the original record.

**`ChatGpt`**:

- `Retry` is the reference run: the result and the state each attempt was made in.
- `ChatGptWrapper` is the loop, proved equal to `Retry`.
- `RetryTrace` states the run as a trace.

**`Handler`**:

- `Generation` and `GenerateToot` are the function and the method for `_generate_toot_from_chatgpt`.
- `AlertToot` is what one alert yields.
- `HandleAlert` and `LambdaHandler` are the loop body and the loop.

The outside world enters as parameters:

- `lookup(url)` stands for the HEAD and GET on the alerts endpoint. It gives `None` when HEAD is not 200, otherwise the document's `toot_text`.
- `dumps` stands for `json.dumps`.
- `api(call)` is the completion service's answer to a request. The request is given by its attempt number, message, temperature and `max_tokens`.
- `tootMaxLength` stands for `TOOT_MAX_LENGTH`.
- The posted toots are the returned sequence.

Three facts about the code that the model keeps:

- Missing keys are not guarded: a missing key raises, and the exception aborts the remaining alerts.
- No error status is returned.
- The toot's length is never checked before posting.

## Model

| member | source | states |
|---|---|---|
| SastTime.AddTwoHours | service_alerts_bot.py:37 | Adding two hours fails (OverflowError) exactly on 9999-12-31 from 22:00 on. Otherwise the result is a valid date-time exactly 7200 seconds later on the reference time line, with minutes and seconds unchanged. Day, month, year and leap-day roll-over follow from this. |
| SastTime.NextDayAdvancesOneDay | service_alerts_bot.py:37 | The calendar day after a valid date, when still within year 9999, is valid and 86400 seconds later. This covers month ends, February in leap and common years, and the year end. |
| SastTime.AddTwoHoursExamples | service_alerts_bot.py:37 | Worked roll-overs: 22:30 goes to 00:30 the next day. Feb 28 goes to Feb 29 in 2024 and 2000, and to Mar 1 in 2023 and 1900. Dec 31 goes to Jan 1. 9999-12-31T22:00 overflows. |
| SastTime.ParseDateTime | service_alerts_bot.py:37 | `strptime(..., "%Y-%m-%dT%H:%M:%S")`: a parsed date-time is always valid, and every failure is a ValueError. |
| SastTime.ParseRender | service_alerts_bot.py:37-38 | Parsing the zero-padded rendering of a valid date-time gives it back. |
| SastTime.RenderParse | service_alerts_bot.py:37-38 | A text that parses is the rendering of its date-time, except that the `T` may have been lower case. |
| SastTime.DropSuffix | service_alerts_bot.py:37 | `utc_str[:-5]`: all but the last five characters, and empty for a shorter text. |
| SastTime.ConvertToSastShifts | service_alerts_bot.py:35-38 | The conversion succeeds exactly when the text without its last five characters parses and is not within the last two hours of year 9999. A parse failure is ValueError and the range failure is OverflowError. On success the result has 25 characters, ends in `+02:00`, and its first 19 parse to the instant two hours later, with minutes and seconds unchanged. |
| SastTime.ConvertIgnoresLastFive | service_alerts_bot.py:37 | Two inputs that differ only in their last five characters convert alike. |
| SastTime.ConvertRendered | service_alerts_bot.py:35-38 | A rendered date-time followed by any five characters converts to the rendering of the date-time two hours later plus `+02:00`, or fails with OverflowError. |
| Template.FillSucceedsIffBound | service_alerts_bot.py:102 | Filling a template's pieces succeeds exactly when every field is bound. Otherwise the error names the first unbound field. |
| Template.FormatEscaped | service_alerts_bot.py:102 | Literal text with its braces doubled formats back to the literal text. |
| Template.FormatSource | service_alerts_bot.py:102 | `str.format` on the text of well-formed pieces gives what filling the pieces gives: the same string, or the same first unbound field. |
| Template.FormatTwoFields | service_alerts_bot.py:14-21 | A template of text, field, text, field, text formats to the texts around the two bindings. Otherwise it fails on the first unbound field. |
| Template.ChatGptTemplateNeedsTootLength | service_alerts_bot.py:14-21 | `CHATGPT_TEMPLATE.format(json_str=j)` fails on the unbound `toot_length` for every JSON text `j`. With both fields bound, it is the prompt text around the two values. |
| Template.AlertUrlFormats | service_alerts_bot.py:26 | `ALERTS_TEMPLATE.format(alert_id=id)` is `https://service-alerts.cct-datascience.xyz/alerts/` + id + `.json`, whatever the id contains. |
| Template.TootFormats | service_alerts_bot.py:27-29 | `TOOT_TEMPLATE.format(answer_str=b, link_str=l)` is b, a blank line, `Content generated automatically from `, then l. Braces inside b or l are copied. |
| Cleanup.RemoveKeysOutcome | service_alerts_bot.py:84-85 | Deleting distinct keys in order succeeds exactly when all are present, and then removes exactly them. Otherwise it raises KeyError on the first absent key. |
| Cleanup.KeptEntries | service_alerts_bot.py:84-94 | After the deletions, a key remains exactly when it was present, is not one of the six removed fields, and was not null. It keeps its value. |
| Cleanup.ConvertStageErrors | service_alerts_bot.py:96-98 | The timestamp stage succeeds exactly when both timestamps were present, non-null and convertible. Otherwise it raises the start timestamp's exception first. On success both timestamps hold their conversions. |
| Cleanup.ConvertStageResult | service_alerts_bot.py:84-98 | Once both timestamps are rewritten, the record is cleaned. The six fields and all nulls are gone, the timestamps hold the new values, and every other entry is unchanged. |
| Cleanup.CleanupOutcome | service_alerts_bot.py:84-98 | The cleanup succeeds exactly when all six removed fields are present and both timestamps are present, non-null and convertible. Otherwise it raises KeyError on the first absent field, or else the first timestamp's exception; a null or absent timestamp is a KeyError. On success the record is cleaned, as in `ConvertStageResult`. |
| Cleanup.Alert.Sanitize | service_alerts_bot.py:84-98 | The three loops leave the dictionary exactly as `CleanupSteps` says, and raise what it says. |
| ChatGpt.Adjust | service_alerts_bot.py:70-75 | After an InvalidRequestError the estimate becomes `int(estimate * 1.2)` and the temperature is kept. After any other failure, including an over-long reply, the temperature rises by 0.2 and the estimate is kept. |
| ChatGpt.RetryTrace | service_alerts_bot.py:41-79 | One to three attempts are made. The first is at temperature 0.2 with estimate `len(message)//4 + 256`, and each request asks for `4097 - estimate` tokens. Every attempt but the last failed and led to the adjusted state. The result is the verdict on the last attempt, so a reply is returned only if it is short enough. A failure is raised only after the third attempt. |
| ChatGpt.ChatGptWrapper | service_alerts_bot.py:41-79 | The retry loop returns exactly the reference run's result and makes exactly its attempts. |
| ChatGpt.TwoInvalidRequestsThenReply | service_alerts_bot.py:42-75 | Two InvalidRequestErrors and then a short reply: three attempts, the estimate grown twice by a fifth, the temperature unchanged, and the reply returned. |
| ChatGpt.MixedFailuresThenReply | service_alerts_bot.py:42-75 | An InvalidRequestError, then another failure, then a short reply: the estimate grows by a fifth after the first attempt, the temperature rises to 0.4 after the second, and the reply is returned. |
| ChatGpt.AlwaysFailing | service_alerts_bot.py:43-79 | A service that always fails some other way: attempts at temperatures 0.2, 0.4 and 0.6 with the same estimate, then the third failure is raised. |
| Handler.WithRequestNumberHint | service_alerts_bot.py:103-106 | The prompt is kept as a prefix. The request-number sentence follows it exactly when the cleaned alert has `request_number`. |
| Handler.PromptNeverCallsApi | service_alerts_bot.py:101-116 | For every cleaned alert, the prompt cannot be built, so the `try` block gives None and makes no request. |
| Handler.GenerationNeverCallsApi | service_alerts_bot.py:82-116 | `_generate_toot_from_chatgpt` never makes a request. It raises the cleanup's exception, or returns None. |
| Handler.GenerateToot | service_alerts_bot.py:82-116 | It cleans the caller's alert in place, as `CleanupSteps` says, and returns what `Generation` says. |
| Handler.AlertTootCases | service_alerts_bot.py:127-148 | One alert with no `Id` raises KeyError. Otherwise the toot is the body, the attribution line, then the alert's address. The body is a non-empty looked-up `toot_text`; an empty one gives the fallback notice without generation. Without a `toot_text` (HEAD not 200, or the key missing or null), the cleanup's exception escapes, or the fallback notice is used. |
| Handler.HandleAlert | service_alerts_bot.py:127-151 | One pass of the loop gives the toot `AlertToot` names, or raises its exception. |
| Handler.LambdaHandler | service_alerts_bot.py:127-155 | At most one toot per alert, in order, each as `AlertToot` gives it. Status 200 is returned exactly when every alert was posted. Otherwise the exception of the first alert not posted escapes. |

## Left out

- `loadshedding_bot.py` is not part of this model. It posts the incoming message verbatim and has no logic.
- `mastodon_bot_utils.py` is not part of this model. It builds the Mastodon client from the environment behind `lru_cache`.
- `TOOT_MAX_LENGTH` is imported from `mastodon_bot_utils.py` at line 9, but the available copy of that file does not define it. The model takes it as the parameter `tootMaxLength`.
- Network and storage calls are parameters or outputs:
  - `requests.head` and `http_session.get(...).json()` are the `lookup` parameter. A failed GET or an undecodable body is not modelled.
  - An exception from `requests.head` (line 134) or from `mastodon.status_post` (line 151) is not modelled. In the bot it would abort the remaining alerts, as a cleanup exception does.
  - `lookup` is a function of the address alone. So two alerts with the same `Id` in one batch get the same answer, whereas the endpoint could answer differently between requests.
  - `openai.ChatCompletion.create` is the `api` parameter, a function from the request to its outcome. It can answer differently at each attempt.
  - `mastodon.status_post` is the returned sequence of toots.
  - The unused `s3` client is left out.
- `json.dumps` and `json.loads` internals: `dumps` is an opaque parameter. The handler receives the already-decoded list of alerts.
- The `event['Records']` envelope and the SNS message are left out. So are print logging and the request timeout.
- `Value` distinguishes only null, strings, and other JSON values (kept as their `str()` text). Converting a non-string timestamp is modelled as a TypeError. The model does not distinguish the cases where Python behaves otherwise. A list timestamp is sliced and then fails in `strptime`. A dictionary timestamp fails at `utc_str[:-5]` itself, with TypeError before Python 3.12 and KeyError from 3.12.
- Floating point: the temperature is kept in tenths (2, 4, 6), and `int(r * 1.2)` is `r * 6 / 5`. The two agree for the non-negative estimates involved, apart from float rounding.
- SastTime.ParseDateTime: does not model `strptime`'s leniency. It accepts exactly the zero-padded 19-character layout, with a `T` or `t` separator, and rejects unpadded fields, other Unicode digits and surrounding whitespace.
- SastTime.Render: does not model `strftime("%Y")` printing years below 1000 without zero padding on some platforms. The model always writes four digits.
- Template.Format: does not interpret positional, attribute, index, conversion or format-spec fields, since none of the bot's templates uses them. Such a field is reported as `UnsupportedField`, or as `MalformedField` when a `{` occurs inside it (as in `{a[{]}`). A name that starts with a digit but is not a number, such as `{0x}`, is also `UnsupportedField`, where Python looks it up as a keyword and raises KeyError.
