/**
 The JSON shapes exchanged between the Flask service and the dashboard:
 the server description and the status snapshot returned by `GET /api/status`.
 */
module Wire {
  import opened Wrappers

  /** The `server` object: name, country and sponsor of the chosen test server. */
  datatype ServerInfo = ServerInfo(name: string, country: string, sponsor: string)

  /**
   One status payload. Every result field may be `null`; `status` is a free string
   because the client must cope with values it does not know.
   */
  datatype Snapshot = Snapshot(
    status: string,
    server: Option<ServerInfo>,
    ping: Option<real>,
    download: Option<real>,
    upload: Option<real>,
    error: Option<string>)

  /** JavaScript `text || fallback` on an optional string: `null` and `""` are falsy. */
  function StringOr(text: Option<string>, fallback: string): (r: string)
    ensures text.Some? && text.value != "" ==> r == text.value
    ensures (text.None? || text.value == "") ==> r == fallback
  {
    if text.Some? && text.value != "" then text.value else fallback
  }
}
