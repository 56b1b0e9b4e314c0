# Payslip parser, greeter and calculator — a Dafny model

This project models the pure logic of three small Python scripts:

- the language-model path of the payslip parser (`sample.py`). It builds the
  prompt around the OCR text. It computes the shortened debug preview of that
  text. It cuts the JSON candidate out of the model's reply with the search
  `\{.*\}` (DOTALL). It parses the candidate and turns every failure into an
  error object `{"payslips": [], "error": …}` instead of raising;
- the greeter `greet_user` (`app.py`);
- the stateless calculator `SimpleCalculator` (`calculator.py`).

Everything is a function, because the source changes no state. The modules
are:

- `Wrappers`: `Option` and `Result`.
- `PayslipPrompt`: the prompt template with its fixed text and markers, and
  the debug preview.
- `LlmResponse`: the reference meaning of the regular-expression search, the
  candidate extraction, and the post-processing of the reply.
- `Greeter`: `greet_user`.
- `Calculator`: the four calculator operations.

Three things outside the model are passed in as parameters:

- the JSON decoder `json.loads` is a function `parse: string -> Result<J, string>`.
  `J` is the type of decoded JSON values. A `Failure` carries the decoder's
  error message.
- the outcome of the chat call is a `Result<string, CallError>`. A `Failure`
  carries the exception the call raised: a `JsonDecodeError` (the client
  decodes the HTTP body as JSON) or any `OtherError`, each with its message.
- the example JSON placed in the prompt is the `desiredJsonExample` argument
  of `CreateLlmPrompt`. No property depends on its text.

Python's `None` name is `Option.None`.

The candidate is everything from the first `{` to the last `}` of the reply,
not the first complete JSON object. With two objects in the reply, the
candidate spans both objects and the text between them, so the decoder
rejects it and the result is an error object.

The debug preview is unchanged by truncation when the text has at most 4000
characters. It is also unchanged for a 4003-character text whose last three
characters are `...`. `PreviewUnchangedIff` states this exact condition.

## Model

| member | source | states |
|---|---|---|
| PayslipPrompt.FillLayout | sample.py:12-33 | In every filled template, the fixed instructions come first. The example sits right after the EXAMPLE marker line and right before the END OF EXAMPLE line. The transition sentence follows, then the DOCUMENT TEXT START line and the document text, then the DOCUMENT TEXT END line, which ends the prompt. The example comes before the document text. The prompt's length is the sum of its parts. |
| PayslipPrompt.CreateLlmPrompt | sample.py:9-34 | The example occurs verbatim at the example offset. The document text occurs verbatim at the document offset, which lies after the example. The length is the fixed text plus both arguments. |
| PayslipPrompt.PromptFixedText | sample.py:12-33 | The prompt is, in this order: the seven-rule instructions, the EXAMPLE marker line, the example, the END OF EXAMPLE line, the transition sentence, the DOCUMENT TEXT START line, the OCR text and the DOCUMENT TEXT END line, each fixed part character for character as in the source. |
| PayslipPrompt.Template.DocumentOf | sample.py:30-32 | Whatever document text it reads out of a prompt rebuilds exactly that prompt. |
| PayslipPrompt.FillRoundTrip | sample.py:30-32 | For every template, reading the document text back out of a filled template gives exactly the text that was put in. |
| PayslipPrompt.PromptRoundTrip | sample.py:30-32 | The OCR text is recovered exactly from the payslip prompt built around it. |
| PayslipPrompt.PromptInjective | sample.py:30-32 | With the example fixed, different OCR texts give different prompts. |
| PayslipPrompt.DebugPreview | sample.py:69 | The preview has at most 4003 characters. A text of at most 4000 characters is returned unchanged. A longer text gives its first 4000 characters followed by `...`. |
| PayslipPrompt.PreviewUnchangedIff | sample.py:69 | The preview equals the text if and only if the text has at most 4000 characters, or has exactly 4003 characters and ends in `...`. |
| PayslipPrompt.PreviewIdempotent | sample.py:69 | The preview of a preview is that preview. |
| LlmResponse.ExtractJsonCandidate | sample.py:135-137 | There is no candidate exactly when the reply has no `{` with a `}` after it. Otherwise the candidate is the span that the leftmost, greedy search reports. It starts with `{`, ends with `}`, and has at least two characters. |
| LlmResponse.SearchFindsUnique | sample.py:135 | The search reports at most one span. |
| LlmResponse.CandidateIsSearchResult | sample.py:135-137 | Whenever the search reports a span, the candidate is exactly that contiguous span of the reply. |
| LlmResponse.CandidateFromFirstOpenToLastClose | sample.py:135-137 | With a first `{` at i and a last `}` at k > i, the candidate is the reply from i to k, both included. |
| LlmResponse.CandidateIsEverySearchResult | sample.py:135-137 | Every span the search reports is the candidate. |
| LlmResponse.ProcessReplyText | sample.py:135-141 | For the text of a reply: no `{` followed by a `}` gives "No valid JSON object found in LLM response." with an empty payslip list. A candidate the decoder accepts gives the parsed value. A candidate the decoder rejects gives "JSON Decode Error: " followed by the decoder's message. A parsed result is always the decoder's value for the searched candidate. |
| LlmResponse.ProcessLlmOutput | sample.py:115-151 | Every failure gives an error object with an empty payslip list; nothing is raised. A call that raised a JSON decode error gives "JSON Decode Error: " followed by its message, as the first handler does; a call that raised any other exception gives that exception's message. A reply with no `{` followed by a `}` gives "No valid JSON object found in LLM response.". A candidate the decoder rejects gives "JSON Decode Error: " followed by the decoder's message. When the decoder accepts the searched candidate, the result is the parsed value, and a parsed result is always the decoder's value for the searched candidate. |
| Greeter.GreetUser | app.py:3-15 | Every greeting starts with "Hello, ". The result is the guest greeting "Hello, guest!" if and only if the name is `None` or empty. Any other name appears verbatim between "Hello, " and "! Welcome.", and nothing else is added. |
| Greeter.NameInGreeting | app.py:15 | A name read out of a greeting is non-empty and greets back to exactly that greeting. |
| Greeter.GreetingRoundTrip | app.py:15 | A non-empty name is recovered from its greeting. |
| Greeter.GuestGreetingHasNoName | app.py:13-14 | No name can be read out of the guest greeting. |
| Greeter.GreetUserInjective | app.py:15 | Distinct non-empty names give distinct greetings. |
| Calculator.Add | calculator.py:9-11 | Taking either argument away from the sum leaves the other. |
| Calculator.Subtract | calculator.py:13-15 | Adding the subtrahend back to the difference gives the minuend. |
| Calculator.Multiply | calculator.py:17-19 | The product divided by either non-zero factor leaves no remainder and gives the other factor. The product is zero exactly when a factor is zero. |
| Calculator.ExactQuotient | calculator.py:17-19 | Helper of `Calculator.Multiply` (the source does no division here): a multiple `q * d` of a non-zero `d` has remainder zero and quotient `q`, which `Multiply`'s contract rests on. |
| Calculator.AddCommutative | calculator.py:9-11 | `add` is commutative. |
| Calculator.MultiplyCommutative | calculator.py:17-19 | `multiply` is commutative. |
| Calculator.SubtractUndoesAdd | calculator.py:9-15 | Subtracting `y` undoes adding `y`, and adding undoes subtracting. |
| Calculator.Divide | calculator.py:21-28 | The result is the message "Error: Cannot divide by zero." exactly when the divisor is zero; nothing is raised on a zero divisor. Otherwise the quotient times the divisor is the dividend, over exact reals. |
| Calculator.DivideUndoesMultiply | calculator.py:17-28 | Dividing a product by its non-zero factor `y` gives the other factor. |

## Left out

- The OCR step is not modelled: the Document AI client, the file read and `process_document` (sample.py:49-63). They are cloud I/O. The OCR text is an argument.
- The chat call to the local model (sample.py:116-129) is not modelled: its model name, messages, temperature and response format are not represented. It is a network call. Its outcome is the `reply` argument of `LlmResponse.ProcessLlmOutput`.
- The example JSON literal (sample.py:77-112) and the step that passes it to the prompt (sample.py:114) are not modelled. `CreateLlmPrompt` takes the example as a parameter. No property depends on its text.
- `json.loads` is not modelled; it is the `parse` oracle. Exceptions other than `JSONDecodeError` raised while decoding (for example on very deep nesting) would go to the generic handler with their own message. The oracle only has the decode-error outcome.
- `LlmResponse.ProcessLlmOutput`: a reply whose content is not a string makes the search raise, and the generic handler catches that. The model has no such reply, since the call's outcome is a `Result<string, CallError>`.
- Every `print` is left out (sample.py:49-74 and 131-150, app.py:17-21). They are console output only. The preview is modelled as the value it prints.
- `Greeter.GreetUser` models names that are strings or `None`. Python's `not name` also treats other false values (0, empty containers) as absent, and formats other true values with `str`. Neither is modelled.
- `Calculator.Divide`: the arguments are integers and the quotient is modelled as an exact real. Python's `/` gives an IEEE double, and its rounding is not modelled. An integer quotient outside the double range raises `OverflowError` in Python, where the model returns the exact quotient. `add`, `subtract` and `multiply` are modelled on integers only, where Python is exact.
- The calculator class has no fields, so its methods are module functions. The instance `self` has no model.
- generate_docs.py is not part of this model. It is I/O around a hosted model API: command-line arguments, an environment variable, the API call, and file writes.
