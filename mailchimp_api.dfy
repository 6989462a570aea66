/** The two calls the service makes to the mailing-list provider: an upsert
    of a list member (PUT .../members/{hash}) and a tag update (POST
    .../members/{hash}/tags). The provider's answers come from an oracle;
    what was sent is kept as a trace. */
module MailchimpApi {
  import opened Dicts
  import opened PyJson

  /** The member's address in the list: the MD5 hex digest of the lower-cased
      email. The digest itself is left symbolic. */
  datatype ContactKey = Md5Hex(lowered: string)

  function ContactHash(email: string): ContactKey
  {
    Md5Hex(Lower(email))
  }

  datatype Request =
    | UpsertMember(key: ContactKey, emailAddress: Json, statusIfNew: string, mergeFields: Dict<Json, Json>)
    | UpdateTags(key: ContactKey, tagName: string, tagStatus: string)

  /** A response with its status code and body, or the exception `requests`
      raised (connection failure, timeout, ...). */
  datatype Reply = Response(code: int, text: string) | Raised(message: string)

  /** The provider's answer to the n-th request sent. */
  type Oracle = (nat, Request) -> Reply

  /** A provider that accepts (200 or 201) every upsert it is sent. */
  ghost predicate AcceptsEveryUpsert(oracle: Oracle)
  {
    forall n: nat, req: Request :: req.UpsertMember? ==> oracle(n, req).Response? && oracle(n, req).code in {200, 201}
  }

  class Api {
    const oracle: Oracle
    var sent: seq<Request>

    constructor (oracle: Oracle)
      ensures this.oracle == oracle && sent == []
    {
      this.oracle := oracle;
      sent := [];
    }

    method Send(req: Request) returns (reply: Reply)
      modifies this
      ensures sent == old(sent) + [req]
      ensures reply == oracle(|old(sent)|, req)
    {
      reply := oracle(|sent|, req);
      sent := sent + [req];
    }
  }
}
