/**
 * The platform-neutral response a handler hands to the speech SDK.
 * `Ask` keeps the session open (`response.ask`, `response.askWithCard`);
 * `Tell` ends it (`response.tellWithCard`). A speech or card text may be
 * `undefined` in the source, which is modelled as `None`.
 */
module Responses {
  import opened Wrappers

  datatype Card = Card(title: string, content: Option<string>)

  datatype Response =
    | Ask(speech: Option<string>, reprompt: Option<string>, card: Option<Card>)
    | Tell(speech: Option<string>, closingCard: Card)
  {
    /** True when the platform closes the session after this response. */
    predicate EndsSession() { Tell? }
  }
}
