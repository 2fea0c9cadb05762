/** The serverless complaints endpoint (`api/complaints.ts`): one
    module-level list of complaints, read and rewritten by a handler that
    dispatches on the HTTP method and on the `type` of a POST body. */
module ComplaintsApi {
  import opened Wrappers
  import opened Domain

  /** A request method other than the three the handler names. */
  type OtherMethodName = m: string | m != "OPTIONS" && m != "GET" && m != "POST" witness "PUT"

  datatype HttpMethod = Options | Get | Post | OtherMethod(name: OtherMethodName)

  /** The fields the handler reads from a POST body. */
  datatype Body = Body(
    actionType: string,
    complaint: Complaint,
    id: string,
    rating: int,
    comment: string,
    timestamp: string,
    complaints: seq<Complaint>)

  datatype Request = Request(verb: HttpMethod, body: Body)

  datatype Payload =
    | NoContent
    | List(items: seq<Complaint>)
    | Saved(message: string, complaint: Complaint)
    | Note(message: string)
    | Failure(error: string)

  datatype Header = Header(name: string, value: string)

  datatype Response = Response(status: int, headers: seq<Header>, payload: Payload)

  /** The three CORS headers set on every response before dispatch. */
  const CorsHeaders: seq<Header> := [
    Header("Access-Control-Allow-Origin", "*"),
    Header("Access-Control-Allow-Methods", "GET, POST, OPTIONS"),
    Header("Access-Control-Allow-Headers", "Content-Type")]

  /** One call of `handler`: the response and the store afterwards. */
  function Handle(store: seq<Complaint>, req: Request): (Response, seq<Complaint>) {
    match req.verb
    case Options => (Response(200, CorsHeaders, NoContent), store)
    case Get => (Response(200, CorsHeaders, List(store)), store)
    case Post =>
      var b := req.body;
      if b.actionType == "CREATE" then
        (Response(201, CorsHeaders, Saved("Complaint saved to backend", b.complaint)), [b.complaint] + store)
      else if b.actionType == "UPDATE_FEEDBACK" then
        (Response(200, CorsHeaders, Note("Feedback updated")),
         WithFeedback(store, b.id, Feedback(b.rating, b.comment, b.timestamp)))
      else if b.actionType == "UPDATE_LIST" then
        (Response(200, CorsHeaders, Note("Store synchronized")), b.complaints)
      else
        (Response(400, CorsHeaders, Failure("Invalid action type")), store)
    case OtherMethod(_) => (Response(405, CorsHeaders, Failure("Method not allowed")), store)
  }

  /** The module-level `complaintsStore` and the handler that updates it. */
  class Endpoint {
    var complaintsStore: seq<Complaint>

    constructor ()
      ensures complaintsStore == []
    {
      complaintsStore := [];
    }

    method Handler(req: Request) returns (res: Response)
      modifies this
      ensures (res, complaintsStore) == Handle(old(complaintsStore), req)
    {
      var headers := [];
      headers := headers + [CorsHeaders[0]];
      headers := headers + [CorsHeaders[1]];
      headers := headers + [CorsHeaders[2]];
      assert headers == CorsHeaders;

      if req.verb == Options {
        return Response(200, headers, NoContent);
      }
      if req.verb == Get {
        return Response(200, headers, List(complaintsStore));
      }
      if req.verb == Post {
        var b := req.body;
        if b.actionType == "CREATE" {
          complaintsStore := [b.complaint] + complaintsStore;
          return Response(201, headers, Saved("Complaint saved to backend", b.complaint));
        }
        if b.actionType == "UPDATE_FEEDBACK" {
          complaintsStore := WithFeedback(complaintsStore, b.id, Feedback(b.rating, b.comment, b.timestamp));
          return Response(200, headers, Note("Feedback updated"));
        }
        if b.actionType == "UPDATE_LIST" {
          complaintsStore := b.complaints;
          return Response(200, headers, Note("Store synchronized"));
        }
        return Response(400, headers, Failure("Invalid action type"));
      }
      return Response(405, headers, Failure("Method not allowed"));
    }
  }
}

/** What the endpoint promises its callers. */
module ComplaintsApiProperties {
  import opened Wrappers
  import opened Domain
  import opened ComplaintsApi

  /** Every response carries the CORS headers, and its status is one of the
      four the handler uses. */
  lemma EveryResponse(store: seq<Complaint>, req: Request)
    ensures Handle(store, req).0.headers == CorsHeaders
    ensures Handle(store, req).0.status in {200, 201, 400, 405}
  {
  }

  /** Only a successful POST may change the store: OPTIONS and GET answer
      200 and keep it, an unknown action answers 400 and an unknown method
      405, both keeping it. */
  lemma ReadsKeepStore(store: seq<Complaint>, req: Request)
    ensures req.verb == Options ==> Handle(store, req) == (Response(200, CorsHeaders, NoContent), store)
    ensures req.verb == Get ==> Handle(store, req).0.payload == List(store) && Handle(store, req).1 == store
    ensures Handle(store, req).0.status in {400, 405} ==> Handle(store, req).1 == store
    ensures Handle(store, req).0.status == 405 <==> req.verb.OtherMethod?
    ensures Handle(store, req).0.status == 400
        <==> req.verb == Post && req.body.actionType !in {"CREATE", "UPDATE_FEEDBACK", "UPDATE_LIST"}
  {
  }

  /** CREATE puts the new complaint first and keeps the rest in order. */
  lemma CreatePrepends(store: seq<Complaint>, c: Complaint, body: Body)
    requires body.actionType == "CREATE" && body.complaint == c
    ensures var (res, after) := Handle(store, Request(Post, body));
      res.status == 201 && |after| == |store| + 1 && after[0] == c && after[1..] == store
  {
    var after := Handle(store, Request(Post, body)).1;
    assert after[1..] == store;
  }

  /** UPDATE_FEEDBACK answers 200 even when no id matches; only matching
      complaints get the new feedback, the others, the length and the
      order stay as they were. */
  lemma FeedbackOnlyMatching(store: seq<Complaint>, body: Body)
    requires body.actionType == "UPDATE_FEEDBACK"
    ensures var (res, after) := Handle(store, Request(Post, body));
      && res.status == 200
      && |after| == |store|
      && forall i :: 0 <= i < |store| ==>
           if store[i].id == body.id
           then after[i] == store[i].(feedback := Some(Feedback(body.rating, body.comment, body.timestamp)))
           else after[i] == store[i]
  {
  }

  /** UPDATE_LIST replaces the whole store. */
  lemma ListReplaces(store: seq<Complaint>, body: Body)
    requires body.actionType == "UPDATE_LIST"
    ensures Handle(store, Request(Post, body)) == (Response(200, CorsHeaders, Note("Store synchronized")), body.complaints)
  {
  }

  /** A GET after a CREATE lists the new complaint first, then what a GET
      before it listed. */
  lemma CreateThenGet(store: seq<Complaint>, body: Body, get: Request)
    requires body.actionType == "CREATE" && get.verb == Get
    ensures var after := Handle(store, Request(Post, body)).1;
      Handle(after, get).0.payload == List([body.complaint] + Handle(store, get).0.payload.items)
  {
  }
}
