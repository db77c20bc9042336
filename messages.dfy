/**
 * Messages the circuit view posts to the extension host: a `command` name
 * and the other properties of the message object.
 */
module Messages {

  import opened Wrappers
  import opened JsonValues

  datatype Message = Message(command: string, body: map<string, Json>) {
    /** `message[name]`, absent when the message has no such property. */
    function Get(name: string): (v: Option<Json>)
      ensures v.Some? <==> name in body
    {
      if name in body then Some(body[name]) else None
    }
  }

  /** `messages.join('\t')` does not throw: only arrays have `join`. */
  predicate Joinable(messages: Option<Json>) {
    messages.Some? && messages.value.JArr?
  }

  /** `s.startsWith(prefix)`. */
  predicate StartsWith(s: string, prefix: string) {
    |prefix| <= |s| && s[..|prefix|] == prefix
  }
}
