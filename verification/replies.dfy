/**
 * How a request sent by a page comes back, as its handlers see it. The
 * network call itself is not modelled: the reply is a parameter.
 */
module Replies {
  import opened Wrappers

  /** Success, or failure with the `detail` text of the error body when it has one. */
  datatype Reply = Succeeded | Failed(detail: Option<string>)

  /**
   * `err.response?.data?.detail || fallback`: the server's detail when it is
   * a non-empty string, the fallback otherwise.
   */
  function ErrorText(detail: Option<string>, fallback: string): (text: string)
    ensures text == fallback || Some(text) == detail
    ensures fallback != "" ==> text != ""
    ensures detail.Some? && detail.value != "" ==> text == detail.value
  {
    if detail.Some? && detail.value != "" then detail.value else fallback
  }
}
