/** What the form screens share: JavaScript truthiness of a text field, and request
    bodies as JSON objects whose values are all strings. */
module Forms {
  /** A JSON object sent as a request body: key to string value. */
  type Payload = map<string, string>

  /** A string is truthy in JavaScript exactly when it is not empty. */
  predicate Filled(s: string) {
    s != ""
  }

  /** What a submit handler decides: stop with a reason (an alert or toast, no
      request), or send this body. */
  datatype Decision<Reason> = Reject(reason: Reason) | Send(payload: Payload)
}
