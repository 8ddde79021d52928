/**
 * The HTTP transport, seen from the SDK: the options it sets on a cURL handle
 * before `exec`, and the status and body that come back.
 */
module Transport {
  import opened Wrappers

  /**
   * One request as the cURL options describe it: CURLOPT_URL, CURLOPT_POST,
   * CURLOPT_CUSTOMREQUEST, CURLOPT_POSTFIELDS, CURLOPT_HTTPHEADER (the header
   * lines in order) and CURLOPT_USERPWD.
   */
  datatype Request = Request(
    url: string,
    post: bool,
    customRequest: Option<string>,
    postFields: Option<string>,
    headers: seq<string>,
    userPwd: Option<string>)

  /** The HTTP status (CURLINFO_HTTP_CODE) and the raw body `exec` returns. */
  datatype Reply = Reply(status: nat, body: string)

  /**
   * The HTTP method libcurl uses: a custom request name wins, otherwise POST
   * when CURLOPT_POST or post fields are set, otherwise GET.
   */
  function EffectiveMethod(req: Request): string {
    match req.customRequest
    case Some(m) => m
    case None => if req.post || req.postFields.Some? then "POST" else "GET"
  }
}
