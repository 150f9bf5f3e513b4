/** The part of an Express response object that the workflow uses: a status
    code that `status()` sets, and a body that `json()` sends once. A second
    `json()` on a response whose headers were already sent raises an error in
    Express and leaves the first reply in place. */
module Express {
  import opened Js

  /** The JSON bodies the workflow sends: `{code, message}` for errors and
      `{data: {message}}` for success. */
  datatype ReplyBody = ErrorBody(code: string, message: string) | SuccessBody(message: string)

  datatype Reply = Reply(status: int, body: ReplyBody)

  /** What the client receives after `reply` is attempted on a response that
      had `sent` so far: the first reply wins. */
  function FirstWrite(sent: Option<Reply>, reply: Reply): (r: Option<Reply>)
    ensures r.Some?
    ensures sent.Some? ==> r == sent
    ensures sent.None? ==> r.value == reply
  {
    if sent.None? then Some(reply) else sent
  }

  class Response {
    var statusCode: int
    /** The reply sent to the client, once `json()` has been called. */
    var reply: Option<Reply>

    /** A fresh response: status 200, nothing sent. */
    constructor ()
      ensures statusCode == 200 && reply == None
    {
      statusCode := 200;
      reply := None;
    }

    /** `res.status(code)`: sets the status code, even after the reply was
        sent. */
    method Status(code: int)
      modifies this`statusCode
      ensures statusCode == code
    {
      statusCode := code;
    }

    /** `res.json(body)`: sends the body with the current status code, or
        fails (`sent` is false: Express throws) when a reply was already
        sent. */
    method Json(body: ReplyBody) returns (sent: bool)
      modifies this`reply
      ensures sent <==> old(reply).None?
      ensures reply == FirstWrite(old(reply), Reply(statusCode, body))
    {
      sent := reply.None?;
      if sent {
        reply := Some(Reply(statusCode, body));
      }
    }
  }
}
