# Verified model of the image-generation Telegram bot's decision logic

The bot (a single Python file, `main.py`) lets a Telegram user press a
"generate image" button, then send a text prompt. It submits the prompt to
an asynchronous image-generation service and polls the job's status. It
replies with the image, or with a failure or error notice.

Two pieces of decision logic are modelled and proved here:

- **The prompt gate** (`session.dfy`, module `Session`). The module-level
  dictionary `user_states` maps a user id to `"waiting_for_prompt"`.
  The button handler sets the entry. The message handler accepts a text as a
  prompt only when the entry is there and equals `"waiting_for_prompt"`, and
  then deletes it. The dictionary is a class `SessionStore` with a `map`
  field and two mutating methods. Each method is specified by a pure
  transition function: `AfterPress` and `AfterMessage`. Sequences of handler
  calls (`Replay`, `Accepted`, `Presses`) carry the "no double consumption"
  lemma.
- **The polling loop** (`polling.dfy`, module `Polling`). The loop of
  `generate_image_from_prompt` makes at most 20 status checks. The HTTP calls
  are replaced by their answers. A `Creation` value is what the job-creation
  request produced: a task id, or an exception. A sequence of `Response`
  values is what the status endpoint answers, check by check. The method
  `GenerateImageFromPrompt` keeps the source's `for` loop with its early
  returns. It is proved equal to the recursive specification `PollFrom`.
  Lemmas about `PollFrom` state the bound, the timeout, the first settling
  answer, and where a returned image comes from.
- **The handlers** (`bot.dfy`, module `Bot`) compose the two. `Button` and
  `HandleMessage` say which replies are sent. They also say when generation
  is started, and what the dictionary becomes.

The outcome of a generation is `Done(image, polls)` when the function returns
(`image` is `None` for Python's `None`), or `Raised(polls)` when an exception
propagates. `polls` counts the status checks made.

Modelling choices:

- The status answers are a sequence of at least 20 entries
  (`requires MaxPolls <= |responses|`): the service answers every check. The
  entries after the last check made are never looked at (`PollReadsPrefix`).
- Every exception on a status check becomes the single answer `HttpError`.
  This covers `raise_for_status` (main.py:98), a body that is not JSON
  (main.py:99) and a missing `task_status` key. It also covers a missing
  `output_images` on `SUCCEED` (main.py:102). The loop does not catch any of
  them, so each one propagates.
- Likewise `CreationError` stands for every exception of the creation step
  (main.py:81-90).
- The map's values are kept as strings, because the gate compares strings.
- The code sleeps 5 seconds before every check, the first one included
  (main.py:93). So a result after three checks has waited 15 seconds, and at
  most 100 seconds are slept (`SecondsWaited`, `SuccessAfterThree`,
  `WaitBound`). The HTTP requests have no time-out, so the 100 seconds bound
  only the sleeping.

## Model

| member | source | states |
|---|---|---|
| `Session.AfterPress` | main.py:53-54 | callback `"generate_image"` leaves the user awaiting a prompt whatever the entry was, adding only that key; any other callback data leaves the dictionary unchanged; other users' entries never change |
| `Session.AfterMessage` | main.py:59-63 | a text is accepted exactly when the entry is present and equals `"waiting_for_prompt"`; on acceptance exactly that user's key is removed; on rejection the dictionary is unchanged; afterwards the user is never awaiting; other users' entries never change |
| `Session.SessionStore.constructor` | main.py:40 | the dictionary starts empty |
| `Session.SessionStore.Press` | main.py:53-54 | the in-place assignment of `button` yields `AfterPress` of the old dictionary |
| `Session.SessionStore.Message` | main.py:59-63 | the check-then-`del` of `handle_message` returns the gate's decision and leaves `AfterMessage` of the old dictionary |
| `Session.NoDoubleConsumption` | main.py:53-63 | over any sequence of presses and messages, a user's accepted prompts plus "still awaiting at the end" never exceed that user's `"generate_image"` presses plus "awaiting at the start" |
| `Session.AcceptedAtMostPresses` | main.py:53-63 | from an empty dictionary, accepted prompts are at most the presses; a user who never pressed gets no prompt accepted |
| `Session.PressThenTwoMessages` | main.py:53-63 | after one press, of two consecutive messages from the same user the first is accepted and the second rejected, and only that user's entry is gone |
| `Session.OthersUntouched` | main.py:53-63 | events of other users never add, remove or change a user's entry |
| `Polling.Classify` | main.py:101-114 | RUNNING/PENDING continue; SUCCEED with a non-empty image list ends with its first entry; SUCCEED with an empty list, FAILED and any other status end with no image; an exception on the check propagates |
| `Polling.PollFrom` | main.py:92-117 | with checks i+1.. still to be made, the number of checks made lies in (i, 20], or is 20 when none remain |
| `Polling.Poll` | main.py:92-117 | the loop makes at least one and at most 20 status checks |
| `Polling.Generate` | main.py:81-117 | at most 20 checks; no check at all exactly when the creation request raised |
| `Polling.GenerateImageFromPrompt` | main.py:77-117 | the `for` loop with early returns yields exactly the outcome of the recursive specification `Generate` |
| `Polling.WaitBound` | main.py:92-93 | with one 5-second wait before each check, at most 100 seconds are slept |
| `Polling.TimesOut` | main.py:92-117 | if all of the first 20 answers are RUNNING or PENDING, the result is no image after exactly 20 checks |
| `Polling.FirstSettled` | main.py:92-114 | if answer k (k < 20) is the first that is not RUNNING/PENDING, exactly k+1 checks are made and the outcome is what answer k says |
| `Polling.PollShape` | main.py:92-117 | conversely, every outcome has all answers before the last check RUNNING/PENDING, and is either settled by the last answer or a timeout at check 20 |
| `Polling.ImageFromSucceed` | main.py:101-103 | a returned image is always the first entry of `output_images` of a SUCCEED answer with a non-empty list, the answer to the last check made |
| `Polling.PollReadsPrefix` | main.py:103-114 | no check follows the one that settles the outcome: answers past the last check made never change the outcome |
| `Polling.ImmediateSuccess` | main.py:101-103 | SUCCEED with one image on the first check returns that image after one check |
| `Polling.SuccessAfterThree` | main.py:92-111 | PENDING, RUNNING, SUCCEED(["u"]) returns "u" after exactly three checks and 15 seconds of waiting |
| `Polling.TwentyRunning` | main.py:92-117 | twenty RUNNING answers return no image after exactly twenty checks |
| `Polling.FailsAtOnce` | main.py:107-109 | FAILED on the first check returns no image after one check |
| `Polling.SucceedWithoutImage` | main.py:104-106 | SUCCEED with an empty `output_images` returns no image, not an exception |
| `Polling.UnknownStatus` | main.py:112-114 | an unrecognised status returns no image at once, whatever images are listed, for every created job |
| `Polling.CreationErrorRaises` | main.py:81-89 | an error on the creation request propagates with no status check made |
| `Bot.FinalReply` | main.py:66-73 | a photo exactly when a non-empty URL came back, and it is that URL; a failure notice exactly when `None` or an empty string came back (the truth test of `if image_url`); an error notice exactly when an exception was raised |
| `Bot.Button` | main.py:48-55 | only `"generate_image"` sets the state and asks for a prompt; other callback data sends nothing and changes nothing |
| `Bot.HandleMessage` | main.py:57-75 | generation runs exactly when the user was awaiting a prompt, after the entry is cleared, with replies "starting" then the final reply; otherwise only the "press the button" reply, no generation, dictionary unchanged |
| `Bot.PhotoFromSucceed` | main.py:66-68 | a photo is only sent for a created job whose last check answered SUCCEED with a non-empty list, and it is that list's first entry |

## Left out

- HTTP requests (URLs, headers, the model name, JSON encoding and decoding,
  main.py:81-99) are replaced by the `Creation` value and the `Response`
  sequence. The task id is carried but not used: the model does not check
  that the status URL is built from it. The prompt is not sent anywhere in
  the model.
- `time.sleep(5)` (main.py:93) is not modelled as time passing. Only the
  count of waits is kept (`SecondsWaited`).
- Logging (main.py:12-14, 72, 105, 108, 113, 116) has no effect on the
  outcome and is left out.
- The texts of the replies, the inline keyboard, `start` (main.py:42-46),
  `query.answer()` (main.py:51) and the application setup and `run_polling`
  (main.py:119-139) are Telegram plumbing. They are left out or reduced to
  the `Reply` kinds.
- Reading the API key and bot token from the environment, with `exit(1)`
  when missing (main.py:16-37), is process start-up and is left out.
- Concurrency between users' handlers (async/await) is left out. Handlers
  are modelled as calls that each run to completion, one after another.
- `Polling.Response`: a `task_status` or `output_images` value of another
  JSON type (a number, `null`) is not modelled. `task_status` is a string and
  `output_images` a list of strings.
- Session.SessionStore.Message: the "starting" reply (main.py:62) is sent
  between the check (main.py:60) and the `del` (main.py:63), outside the
  `try`. If sending it raises, the handler ends with the entry still
  `"waiting_for_prompt"` and no generation runs. The model clears the entry
  whenever the gate accepts, so it does not capture that path.
- Bot.HandleMessage: for the same reason, a failing "starting" reply
  (main.py:62) leaves the dictionary as it was and starts no generation; the
  model assumes that reply is delivered.
- Bot.Button: `edit_message_text` (main.py:55) can raise after the assignment
  at main.py:54. The dictionary then keeps the new entry but no prompt
  request is shown; the model assumes the edit is delivered.
- Exceptions raised while sending the photo or the notices
  (main.py:68-73) are Telegram transport failures and are left out; the
  model's error reply covers only exceptions of the generation itself.
- The unused imports `PIL` and `io.BytesIO` (main.py:4-5) are left out.
