/** Values shared by every policy layer: optional values, the errors the
    layers raise, and what a wrapped handler method returns. */
module Basics {

  datatype Option<T> = None | Some(value: T) {
    /** The value, or `default` when there is none. */
    function GetOr(default: T): (v: T) {
      if Some? then value else default
    }
  }

  /** Errors raised by the policy layers, plus the wrapped handler's own
      errors, which pass through every layer unchanged. */
  datatype Error =
    | NotAuthenticated
    | InternalServerError(message: string)
    | HandlerError(code: int)

  /** A call that either succeeds with a value or fails with an error
      (the synchronous reading of a deferred). */
  datatype Result<T> = Ok(value: T) | Err(error: Error)

  /** A JSON-encodable value. */
  datatype Json =
    | JNull
    | JBool(b: bool)
    | JNumber(n: int)
    | JString(s: string)
    | JList(items: seq<Json>)
    | JDict(fields: map<string, Json>)

  /** What a handler method returns: a value, or an already rendered body. */
  datatype Data = Value(json: Json) | Body(text: string)

  /** The values the response cache serialises before storing them: a
      dictionary or a list. */
  predicate IsDictOrList(d: Data) {
    d.Value? && (d.json.JDict? || d.json.JList?)
  }

  /** The media type set on serialised responses, and the default when a
      response carries no content type. */
  const JsonType: string := "application/json"

  /** `s` ends with `suffix`, the way byte-string `endswith` decides it. */
  predicate EndsWith(s: string, suffix: string): (ok: bool)
    ensures ok <==> |suffix| <= |s| && forall i :: 0 <= i < |suffix| ==> s[|s| - |suffix| + i] == suffix[i]
  {
    |suffix| <= |s| && s[|s| - |suffix|..] == suffix
  }

  /** Reference definition: `s` is some string followed by `suffix`. */
  ghost predicate HasSuffix(s: string, suffix: string) {
    exists p: string {:trigger p + suffix} :: s == p + suffix
  }

  lemma EndsWithIsSuffix(s: string, suffix: string)
    ensures EndsWith(s, suffix) <==> HasSuffix(s, suffix)
  {
    if EndsWith(s, suffix) {
      var p := s[..|s| - |suffix|];
      assert s == p + suffix;
    }
    if HasSuffix(s, suffix) {
      var p: string :| s == p + suffix;
      assert s[|s| - |suffix|..] == suffix;
    }
  }
}
