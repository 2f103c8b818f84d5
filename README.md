# stock-tech-fib core, modelled in Dafny

This project models three parts of the stock-tech-fib service and proves properties of them:

- **Fibonacci levels.** `calculate_fibonacci_levels` in `src/app/processor.py` turns a swing high and low into a map from level labels to prices. The swing is given explicitly or taken from the bar history.
  - Retracement has five levels, labelled as truncated percentages ("23%" … "78%").
  - Extension has four levels, labelled as three-decimal multiples ("1.272x" … "2.618x").
  - An unknown method or a failed computation gives the empty map.
- **Queue sender.** `QueueSender` in `src/app/queue_sender.py` is the publisher of analysis results.
  - It selects its backend (RabbitMQ or SQS) when constructed.
  - It connects to RabbitMQ with at most five attempts, waiting five seconds after each failure.
  - It publishes messages and lets publish failures propagate.
  - It closes its connection only if it is open, its flush does nothing, and its health check reads state only.
- **Version bump.** `next_version` in `bump_version.py` computes the next version string from a parsed version and a part name, following items 6 to 8 of Semantic Versioning 2.0.0.

Modules and files:

| file | module | contents |
|---|---|---|
| `results.dfy` | `Results` | `Option`, `Result` and `Outcome` |
| `decimal.dfy` | `Decimal` | Decimal text for natural numbers: formatting, parsing (with a round trip), zero padding and splitting on a separator |
| `rounding.dfy` | `Rounding` | `int()` truncation, round-half-even, `{:.3f}` formatting, and what a two-decimal `round` must satisfy (`IsCentRounding`) |
| `processor.dfy` | `Processor` | The ratio tables and labels, the swing defaulting, the level map as a function (`FibonacciLevels`), and the loop method `CalculateFibonacciLevels` proved equal to it |
| `processor_properties.dfy` | `ProcessorProperties` | Labels, formulas, bounds, ordering, the error returns and a worked example |
| `queue_sender.dfy` | `Sender` | The `QueueSender` class with its fields, a `Clock` that records sleeps, and the connection-attempt oracle |
| `bump_version.dfy` | `BumpVersion` | `NextVersion` over the (major, minor, micro) of a parsed version, the three-component output format read back, and the bump rules |

Modelling choices:

- **Prices.** Prices are exact reals, so the ratio literals are exact decimals.
- **Rounding.** `round(price, 2)` is a parameter `round` of the level computations.
  - The properties that depend on it assume only `IsCentRounding(round)`: the result is a whole number of cents, within half a cent of its input, and monotone.
  - `Rounding.RoundCents` (half-even on exact reals) is proved to be such a function.
- **Bar history.** The history is a `Frame`: the set of column names present and the sequence of `(high, low)` bars. A missing `High` or `Low` column is the `KeyError` that makes the source return `{}`.
- **RabbitMQ connections.** Each attempt's outcome comes from an oracle `broker: nat -> ConnectAttempt`:
  - `Refused`: no connection.
  - `ChannelFailed`: the connection is stored, but no channel.
  - `Opened`: both are stored.
- **SQS client and publishing.** Whether the SQS client can be created is the input `clientOk`. Whether a publish is accepted is the input `accepted`.
- **Sleeping.** `time.sleep` is `Clock.Sleep`, which appends the duration to `Clock.sleeps`.
- **Raised exceptions.** The sender's exceptions are values:
  - `New` and `ConnectToRabbitmq` return a `Result` or `Outcome`.
  - `SendMessage` returns `Fail(PublishError)` where the source re-raises.

A note on labels: the retracement label is `int(ratio * 100)` followed by "%". The label for 0.618 is therefore "61%", not "61.8%", and `ProcessorProperties.RetracementLabels` states the five labels the code produces.

A note on rounding: Python's `round(x, 2)` on a float rounds the binary value half to even, not half away from zero. The model follows the code's call and keeps the rounding function abstract, as described above.

## Model

| member | source | states |
|---|---|---|
| Processor.KindOf | src/app/processor.py:47-57 | Only "retracement" and "extension" select a table; any other method name selects none. |
| Processor.ColumnMax | src/app/processor.py:42 | The maximum of a non-empty column is one of its values and no value exceeds it. |
| Processor.ColumnMin | src/app/processor.py:44 | The minimum of a non-empty column is one of its values and no value is below it. |
| Processor.ResolveSwing | src/app/processor.py:41-44 | An explicit swing high or low is used unchanged; resolving fails exactly when an absent bound's column (`High` or `Low`) is missing. |
| Processor.RetracementLabelValue | src/app/processor.py:50 | A retracement label is "%" after the decimal text that reads back as int(r·100). |
| Processor.ExtensionLabelValue | src/app/processor.py:54 | An extension label is r rounded to the nearest thousandth t: the whole part t / 1000, a point, three digits reading t % 1000, then "x". |
| Processor.RetracementPrice | src/app/processor.py:49 | A 0 ratio prices at the high and a ratio of 1 at the low: the price sits ratio r of the range below the high. |
| Processor.ExtensionPrice | src/app/processor.py:53 | A ratio of 1 prices at the high and a ratio of 2 at the high plus the whole range. |
| Processor.FibonacciLevels | src/app/processor.py:20-70 | The whole calculation as a function; a non-empty result implies a known method and a resolved swing. |
| Processor.TabulateStep | src/app/processor.py:48-54 | One loop iteration adds exactly the entry label(ratio) ↦ round(price(ratio)) to the levels built so far. |
| Processor.LevelsOfSwing | src/app/processor.py:40-66 | With a resolved swing and a known method, the result is that method's full table for the swing. |
| Processor.CalculateFibonacciLevels | src/app/processor.py:20-70 | The two-loop method that fills the dict in place returns exactly `FibonacciLevels`, including `{}` for a missing column or an unknown method. |
| ProcessorProperties.RetracementLabels | src/app/processor.py:48-50 | The five retracement labels are "23%", "38%", "50%", "61%", "78%" (truncation, not rounding). |
| ProcessorProperties.ExtensionLabels | src/app/processor.py:52-54 | The four extension labels are "1.272x", "1.618x", "2.000x", "2.618x". |
| ProcessorProperties.RetracementTableByPrice | src/app/processor.py:47-50 | The retracement result has exactly five keys, each mapped to the rounded retracement price of its ratio (the step `RetracementTable` rewrites). |
| ProcessorProperties.RetracementTable | src/app/processor.py:47-50 | The retracement result has exactly the five keys, each mapped to round(high − (high − low)·r) for its ratio r. |
| ProcessorProperties.ExtensionTable | src/app/processor.py:51-54 | The extension result has exactly the four keys, each mapped to round(high + (high − low)·(r − 1)); "2.000x" is round(high + (high − low)). |
| ProcessorProperties.DefaultSwingIsExtreme | src/app/processor.py:41-44 | An absent swing high becomes the largest bar high and an absent swing low the smallest bar low, independently of each other. |
| ProcessorProperties.RetracementRatios | src/app/processor.py:16 | Every retracement ratio lies strictly between 0 and 1, in strictly increasing table order. |
| ProcessorProperties.ExtensionRatios | src/app/processor.py:17 | Every extension ratio is above 1, in strictly increasing table order. |
| ProcessorProperties.RetracementWithinSwing | src/app/processor.py:49 | For high > low, unrounded retracement prices lie strictly between low and high and strictly decrease in table order; for high = low they all equal high. |
| ProcessorProperties.ExtensionAboveSwing | src/app/processor.py:53 | For high > low, unrounded extension prices lie strictly above high and strictly increase in table order; for high = low they all equal high. |
| ProcessorProperties.EmptyExactlyOnError | src/app/processor.py:55-70 | The result is the empty map exactly when the method is unknown or a needed column is missing. |
| ProcessorProperties.TableNonEmpty | src/app/processor.py:46-54 | A known method always yields a non-empty table. |
| ProcessorProperties.RoundedRetracementWithinSwing | src/app/processor.py:50 | After rounding, every retracement level lies between round(low) and round(high), and between low and high when both are whole cents. |
| ProcessorProperties.RoundedExtensionAboveSwing | src/app/processor.py:54 | After rounding, every extension level is at least round(high), and at least high when high is a whole number of cents. |
| ProcessorProperties.ExampleSwing | src/app/processor.py:41-44 | Bars (110, 95) and (105, 90) with no explicit swing give swing high 110 and swing low 90. |
| ProcessorProperties.WorkedRetracement | src/app/processor.py:47-50 | For those bars, the "61%" retracement level is round(97.64). |
| ProcessorProperties.ExampleExtensionTable | src/app/processor.py:51-54 | For swing 110/90, the "1.618x" extension entry is round(122.36). |
| ProcessorProperties.WorkedExtension | src/app/processor.py:51-54 | For those bars, the "1.618x" extension level is round(122.36). |
| Rounding.Truncate | src/app/processor.py:50 | `int()` rounds toward zero: the result is the integer nearest x on the side of zero, for either sign. |
| Rounding.RoundHalfEven | src/app/processor.py:54 | The result is within one half of x; ties go to the even neighbour. |
| Rounding.RoundHalfEvenOfInt | src/app/processor.py:54 | An integer rounds to itself. |
| Rounding.RoundHalfEvenMonotone | src/app/processor.py:54 | Rounding preserves order. |
| Rounding.FormatFixed3 | src/app/processor.py:54 | `{:.3f}` text has at least five characters; its value is stated by the two lemmas below. |
| Rounding.FormatFixed3Digits | src/app/processor.py:54 | For y ≥ 0 the text is y rounded to the nearest thousandth t: the part before the point reads back as t / 1000 and the three digits after it as t % 1000. |
| Rounding.FormatFixed3Value | src/app/processor.py:54 | The text starts with '-' exactly for negative values, and the rest is the text of the magnitude. |
| Rounding.CentRoundingFixesCents | src/app/processor.py:50 | A two-decimal rounding leaves a whole number of cents unchanged. |
| Rounding.RoundCentsIsCentRounding | src/app/processor.py:50 | Half-even rounding to cents gives whole cents within half a cent and is monotone. |
| Decimal.IntToString | src/app/processor.py:50 | The decimal text of an integer is non-empty and starts with '-' exactly for negatives. |
| Decimal.IntToStringValue | src/app/processor.py:50 | The text reads back as the integer: as i itself when i ≥ 0, and as −i after the sign when i < 0. |
| Decimal.Pad3 | src/app/processor.py:54 | The three decimals of a fixed-point number are exactly three digits. |
| Decimal.Pad3Value | src/app/processor.py:54 | Those three digits denote n, zero-padded on the left. |
| Decimal.NatToString | bump_version.py:37 | The decimal text of a natural number is non-empty and all digits, and starts with '0' only for zero. |
| Decimal.NatToStringNoLeadingZero | bump_version.py:37 | The only text with a leading '0' is "0" itself. |
| Decimal.ParseNat | bump_version.py:37-43 | Parsing succeeds exactly on non-empty all-digit text. |
| Decimal.ParseNatToString | bump_version.py:37-43 | Parsing a formatted natural number gives it back. |
| Decimal.Split | bump_version.py:37-43 | Splitting always yields at least one part, and text without the separator is its own single part. |
| Decimal.SplitAtFirst | bump_version.py:37-43 | Splitting at the first separator yields the text before it followed by the split of the rest. |
| Sender.Waits | src/app/queue_sender.py:76 | n retries' waits are n sleeps of 5 seconds each. |
| Sender.WaitsTotal | src/app/queue_sender.py:56-77 | n failed attempts sleep n·5 seconds in total. |
| Sender.FirstOpened | src/app/queue_sender.py:57-68 | The first attempt within 1..5 that opens a connection and a channel, or none if no attempt does. |
| Sender.FirstOpenedAt | src/app/queue_sender.py:57-68 | An attempt that opens both, after only failed ones, is the first. |
| Sender.FirstOpenedNone | src/app/queue_sender.py:69-77 | If no attempt in 1..5 opens both, there is no first. |
| Sender.ConnectionAfterIsLastHalfOpen | src/app/queue_sender.py:65-76 | After failed attempts, the connection is the one before them or the open connection of the last attempt whose channel failed. |
| Sender.AfterClose | src/app/queue_sender.py:105-109 | After close there is a connection exactly when there was one before, and it is not open. |
| Sender.AfterCloseIdempotent | src/app/queue_sender.py:105-109 | A second close changes nothing. |
| Sender.Clock.Sleep | src/app/queue_sender.py:76 | Each sleep is recorded, in order. |
| Sender.QueueSender.constructor | src/app/queue_sender.py:30-38 | The settings are stored, and no client, connection or channel exists yet. |
| Sender.QueueSender.New | src/app/queue_sender.py:21-52 | "sqs" creates only a client (no connection or channel) or re-raises the client error; "rabbitmq" runs the connect loop; any other type is a `ValueError`; every constructed sender is healthy. |
| Sender.QueueSender.ConnectToRabbitmq | src/app/queue_sender.py:54-77 | Success exactly when one of attempts 1..5 opens both. On success, it stops at the first such attempt, with connection and channel set and a 5-second sleep after each earlier attempt. Otherwise it makes exactly five attempts and five sleeps, then raises `ConnectionError`. |
| Sender.QueueSender.SendMessage | src/app/queue_sender.py:79-103 | The payload is published once to the configured exchange and routing key (rabbitmq) or queue URL (sqs). A refused publish or a missing channel or client is raised, with nothing recorded. An unknown type sends nothing. |
| Sender.QueueSender.Close | src/app/queue_sender.py:105-109 | Only an existing, open connection is closed; afterwards a RabbitMQ sender is not healthy. |
| Sender.QueueSender.Flush | src/app/queue_sender.py:111-113 | Nothing changes. |
| Sender.QueueSender.HealthCheck | src/app/queue_sender.py:115-121 | Healthy is: rabbitmq and the connection exists and is open; sqs and the client exists; false for any other type. No state changes. |
| BumpVersion.ParseTriple | bump_version.py:37-43 | A string reads back as a triple only when it splits into exactly three parts on ".". |
| BumpVersion.Format | bump_version.py:37-43 | The f-string "a.b.c" splits on "." into exactly the three numbers' decimal texts. |
| BumpVersion.FormatShape | bump_version.py:37-43 | A formatted version is exactly three non-empty, all-digit components, each with a leading zero only when it is "0". |
| BumpVersion.ParseFormat | bump_version.py:37-43 | Reading back a formatted triple gives the triple. |
| BumpVersion.NextVersion | bump_version.py:19-45 | Over the (major, minor, micro) the source reads from the parsed version: success exactly for "major", "minor" or "patch"; any other part fails with "Specify 'major', 'minor', or 'patch'.". |
| BumpVersion.NextMajor | bump_version.py:35-37 | "major" gives (M+1).0.0. |
| BumpVersion.NextMinor | bump_version.py:38-40 | "minor" gives M.(m+1).0. |
| BumpVersion.NextPatch | bump_version.py:41-43 | "patch" gives M.m.(p+1). |
| BumpVersion.NextVersionShape | bump_version.py:37-43 | Every successful result is three dot-separated decimal numbers without leading zeros. |
| BumpVersion.NextVersionIncreases | bump_version.py:35-43 | Every successful result reads back as a triple lexicographically greater than the input (major, minor, micro). |

## Left out

- pandas: `DataFrame`, `.max()` and `.min()`. The history is a column-name set plus a sequence of bars. An empty history whose needed column exists is excluded by `SwingDefined`, because pandas would yield NaN there, which the model does not represent. Non-numeric column contents are not modelled either.
- Floating point: IEEE double behaviour is not modelled. Prices are exact reals, and `round(·, 2)` is an abstract parameter constrained by `IsCentRounding`.
- Rounding.FormatFixed3: rounds the exact decimal value half to even, where Python formats the nearest binary double. No ratio in the table is a tie, so the labels agree.
- Logging: all logger calls in both modules are left out, as they do not affect results or state.
- Serialisation: `json.dumps` is a library serialiser. The payload is an opaque value built from the message.
- pika and boto3: `ConnectionParameters`, `BlockingConnection`, `basic_publish`, `boto3.client` and `sqs_client.send_message` are foreign network calls, modelled only as success or failure outcomes. The connection parameters (heartbeat 600, blocked-connection timeout 300), host and vhost are stored but have no effect.
- Sender.QueueSender.New: the environment defaults of `__init__` (`QUEUE_TYPE` lowered, `RABBITMQ_HOST` and so on, and `AWS_REGION` for the client) are read from the process environment. Here they are the `Config` and `region` arguments, with the defaults listed in `DEFAULT_CONFIG` and `DEFAULT_REGION` ("us-east-1").
- Processor.FibonacciLevels: Python's default argument `method="retracement"` is not a Dafny feature, so every caller passes the method name; a call that omits it corresponds to passing `DEFAULT_METHOD`.
- Time: `time.sleep` is recorded as a list of durations in `Clock`; no real time passes.
- Message consumption, acknowledgement and dead-letter routing: `app/queue_handler` is not part of this model.
- `src/app/main.py` and `src/app/config.py`: environment lookup and the entry point are not part of this model.
- Version parsing: PEP 440 parsing by `packaging.version.Version`, and the `__main__` argument handling and printing of `bump_version.py`. `ParsedVersion` holds the parsed version (epoch, release numbers, remaining segments as text), and `NextVersion` takes its `Parts()`, the major, minor and micro numbers the source reads (0 for a missing release component). An unparsable version string, which raises `InvalidVersion` in the source, is therefore outside the model.
