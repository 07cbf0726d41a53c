/** The invoice listing: its query parameters and the extraction of the list from the reply. */
module Invoices {
  import opened Wrappers
  import opened Http
  import opened Settings
  import opened TokenCache
  import opened Executor

  /** The endpoint the listing calls, below `api_base_url`. */
  const InvoicesEndpoint: string := "invoices"

  /** Why a listing raised: the retried request gave up, or the reply is not a JSON object. */
  datatype InvoicesFailure = RequestGaveUp(last: AttemptError) | NotAnObject

  /**
   * The query parameters of a listing: the organization always, each
   * filter only when its argument is truthy, and its value unchanged.
   */
  function InvoiceParams(organizationId: string, fromDate: Option<string>, toDate: Option<string>,
                         status: Option<string>): (p: map<string, string>)
    ensures "organization_id" in p && p["organization_id"] == organizationId
    ensures "date_start" in p <==> Truthy(fromDate)
    ensures "date_end" in p <==> Truthy(toDate)
    ensures "status" in p <==> Truthy(status)
    ensures "date_start" in p ==> p["date_start"] == fromDate.value
    ensures "date_end" in p ==> p["date_end"] == toDate.value
    ensures "status" in p ==> p["status"] == status.value
    ensures p.Keys <= {"organization_id", "date_start", "date_end", "status"}
  {
    var byOrganization := map["organization_id" := organizationId];
    var byStart := if Truthy(fromDate) then byOrganization["date_start" := fromDate.value] else byOrganization;
    var byEnd := if Truthy(toDate) then byStart["date_end" := toDate.value] else byStart;
    if Truthy(status) then byEnd["status" := status.value] else byEnd
  }

  /** The wrapped call a listing makes. */
  function InvoiceCall(cfg: ZohoConfig, fromDate: Option<string>, toDate: Option<string>,
                       status: Option<string>): (call: ApiCall)
    ensures call.verb == "GET" && call.endpoint == "invoices" && call.data.None?
    ensures call.params == Some(InvoiceParams(cfg.organizationId, fromDate, toDate, status))
  {
    ApiCall("GET", InvoicesEndpoint, Some(InvoiceParams(cfg.organizationId, fromDate, toDate, status)), None)
  }

  /**
   * The list under the `invoices` key of the reply, unchanged, or the empty
   * list when the key is missing; a reply that is not an object has no `get`.
   */
  function ExtractInvoices(body: Json): (r: Result<Json, InvoicesFailure>)
    ensures r.Success? <==> body.JObject?
    ensures r.Failure? ==> r.error == NotAnObject
    ensures body.JObject? && "invoices" in body.members ==> r.value == body.members["invoices"]
    ensures body.JObject? && "invoices" !in body.members ==> r.value == JArray([])
  {
    match body
    case JObject(members) => Success(if "invoices" in members then members["invoices"] else JArray([]))
    case _ => Failure(NotAnObject)
  }

  /** What the listing returns, or raises, once the retried call has ended. */
  function ListingResult(outcome: Outcome): (r: Result<Json, InvoicesFailure>)
    ensures outcome.GaveUp? ==> r == Failure(RequestGaveUp(outcome.last))
    ensures outcome.Returned? ==> r == ExtractInvoices(outcome.body)
  {
    match outcome
    case GaveUp(e) => Failure(RequestGaveUp(e))
    case Returned(body) => ExtractInvoices(body)
  }

  /** A listing without truthy filters sends the organization alone. */
  lemma NoFiltersSendOrganizationOnly(organizationId: string, fromDate: Option<string>, toDate: Option<string>,
                                      status: Option<string>)
    requires !Truthy(fromDate) && !Truthy(toDate) && !Truthy(status)
    ensures InvoiceParams(organizationId, fromDate, toDate, status) == map["organization_id" := organizationId]
  {
  }

  /**
   * Every request of a listing is a GET of `api_base_url/invoices` with the
   * listing's parameters, no body, and a bearer token.
   */
  lemma ListingRequests(cfg: ZohoConfig, c: Cache, fromDate: Option<string>, toDate: Option<string>,
                        status: Option<string>, env: nat -> Attempt)
    ensures forall req <- Retry(cfg, c, InvoiceCall(cfg, fromDate, toDate, status), env).sent ::
      && req.verb == "GET"
      && req.url == cfg.apiBaseUrl + "/invoices"
      && req.params == Some(InvoiceParams(cfg.organizationId, fromDate, toDate, status))
      && req.body.None?
      && "Content-Type" in req.headers && req.headers["Content-Type"] == "application/json"
  {
    var call := InvoiceCall(cfg, fromDate, toDate, status);
    RetrySendsOnlyCall(cfg, c, call, env, 0);
    forall req <- Retry(cfg, c, call, env).sent
      ensures req.verb == "GET" && req.url == cfg.apiBaseUrl + "/invoices"
      ensures req.headers["Content-Type"] == "application/json"
    {
      RequestShape(cfg, call, req);
    }
  }

  /** A reply holding a list of invoices yields exactly that list, in order. */
  lemma ListedInvoicesKeepOrder(items: seq<Json>, rest: map<string, Json>)
    ensures var r := ExtractInvoices(JObject(rest["invoices" := JArray(items)]));
      r.Success? && r.value.JArray? && r.value.items == items
  {
  }
}
