/** The two Telegram handlers of main.py that touch the core: `button` and
    `handle_message`. Replies are modelled by what they say, not their text. */
module Bot {
  import opened Session
  import opened Polling

  /** The messages the bot sends back. */
  datatype Reply =
    | AskForPrompt              // the edited button message asking for a prompt
    | PressButtonFirst          // "press 'generate image' to start"
    | Starting(prompt: string)  // "starting generation for '<prompt>'"
    | Photo(url: Url)           // the generated image
    | GenerationFailed          // generation returned no image
    | GenerationError           // generation raised an exception

  /** The reply that ends a generation: the photo, a failure notice when no
      usable URL came back (`None`, or an empty string, which Python treats as
      false), or an error notice when an exception was raised. */
  function FinalReply(o: Outcome): (r: Reply)
    ensures r.Photo? <==> o.Done? && o.image.Some? && o.image.value != ""
    ensures r.Photo? ==> r.url == o.image.value
    ensures r == GenerationFailed <==> o.Done? && (o.image.None? || o.image.value == "")
    ensures r == GenerationError <==> o.Raised?
  {
    match o
    case Done(Some(url), _) => if url != "" then Photo(url) else GenerationFailed
    case Done(None, _) => GenerationFailed
    case Raised(_) => GenerationError
  }

  /** `button`: only the "generate_image" callback opens the prompt window and
      asks for a prompt; any other callback data is ignored. */
  method Button(store: SessionStore, user: UserId, data: string) returns (replies: seq<Reply>)
    modifies store
    ensures store.states == AfterPress(old(store.states), user, data)
    ensures replies == if data == GenerateImageData then [AskForPrompt] else []
  {
    store.Press(user, data);
    if data == GenerateImageData {
      replies := [AskForPrompt];
    } else {
      replies := [];
    }
  }

  /** `handle_message`: a user awaiting a prompt has the entry cleared and the
      text sent for generation; anyone else is told to press the button, no
      generation is started and the dictionary is left as it was. */
  method HandleMessage(store: SessionStore, user: UserId, text: string,
                       creation: Creation, responses: seq<Response>)
    returns (replies: seq<Reply>, generated: bool)
    requires MaxPolls <= |responses|
    modifies store
    ensures generated <==> IsAwaiting(old(store.states), user)
    ensures store.states == AfterMessage(old(store.states), user).sessions
    ensures !generated ==> store.states == old(store.states) && replies == [PressButtonFirst]
    ensures generated ==> replies == [Starting(text), FinalReply(Generate(creation, responses))]
  {
    generated := store.Message(user);
    if generated {
      var outcome := GenerateImageFromPrompt(creation, responses);
      replies := [Starting(text), FinalReply(outcome)];
    } else {
      replies := [PressButtonFirst];
    }
  }

  /** A photo is only ever sent for a created job whose last status check
      answered SUCCEED with a non-empty `output_images`, and it is that list's
      first entry. */
  lemma PhotoFromSucceed(creation: Creation, responses: seq<Response>)
    requires MaxPolls <= |responses|
    requires FinalReply(Generate(creation, responses)).Photo?
    ensures var o := Generate(creation, responses);
      && creation.Created?
      && 1 <= o.polls
      && IsImage(responses[o.polls - 1])
      && FinalReply(o).url == responses[o.polls - 1].outputImages[0]
  {
    ImageFromSucceed(responses);
  }
}
