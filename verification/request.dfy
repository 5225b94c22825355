/** The URL construction and the response check of `request`, the helper every
    API call goes through. The `fetch` itself and the JSON parsing are not
    modelled: the status flag and the parsed body are parameters. */
module Request {
  import opened Base

  const BaseApiUrl: string := "http://localhost:4000/todos"
  const RequestFailed: string := "Request failed"

  /** `s.startsWith(prefix)`: `s` agrees with `prefix` character by character. */
  predicate StartsWith(s: string, prefix: string)
    ensures StartsWith(s, prefix) <==> |prefix| <= |s| && forall i :: 0 <= i < |prefix| ==> s[i] == prefix[i]
  {
    |prefix| <= |s| && s[..|prefix|] == prefix
  }

  /** `s` ends with `suffix`. */
  predicate EndsWith(s: string, suffix: string) {
    |suffix| <= |s| && s[|s| - |suffix|..] == suffix
  }

  /** The URL fetched for `pathOrUrl`: anything starting with "http" as it
      is, anything else appended to the base URL, with a "/" inserted unless the
      path already starts with one. */
  function Url(pathOrUrl: string): (url: string)
    ensures StartsWith(pathOrUrl, "http") ==> url == pathOrUrl
    ensures !StartsWith(pathOrUrl, "http") ==>
      && StartsWith(url, BaseApiUrl) && EndsWith(url, pathOrUrl)
      && |url| > |BaseApiUrl| && url[|BaseApiUrl|] == '/'
      && url[|BaseApiUrl| + 1..] == if StartsWith(pathOrUrl, "/") then pathOrUrl[1..] else pathOrUrl
  {
    if StartsWith(pathOrUrl, "http") then pathOrUrl
    else BaseApiUrl + (if StartsWith(pathOrUrl, "/") then "" else "/") + pathOrUrl
  }

  /** The fields of the parsed body that `request` reads. Only `false` in
      `success` counts as a refusal; `message` is `None` when absent or null. */
  datatype Body<T> = Body(success: Option<bool>, message: Option<string>, data: Option<T>)

  /** What `request` resolves to, or the message of the `Error` it throws. */
  datatype Response<T> = Accepted(data: Option<T>) | Rejected(message: string)

  /** The accept/reject rule: rejected exactly when the status is not ok or the
      body says `success: false`; the message is the body's when it is not empty,
      "Request failed" otherwise; an accepted response yields the body's `data`. */
  function Check<T>(ok: bool, body: Body<T>): (r: Response<T>)
    ensures r.Rejected? <==> !ok || body.success == Some(false)
    ensures r.Rejected? ==> r.message != ""
    ensures r.Rejected? && body.message.Some? && body.message.value != "" ==> r.message == body.message.value
    ensures r.Rejected? && (body.message.None? || body.message.value == "") ==> r.message == RequestFailed
    ensures r.Accepted? ==> r.data == body.data
  {
    if !ok || body.success == Some(false) then
      Rejected(if body.message.Some? && body.message.value != "" then body.message.value else RequestFailed)
    else Accepted(body.data)
  }
}
