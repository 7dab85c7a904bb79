/**
 * The Flask back end's access-request workflow over its MongoDB collections
 * `approved_users`, `access_requests` and `classifications`
 * (backend/mongo_connection.py).
 *
 * A collection is a sequence of records in insertion order. `find_one` with a
 * filter returns the first record that matches it, and `update_one` updates
 * that same record. Each route handler is a method of `Database` that returns
 * the reply the handler sends; the reply's `Code()` is the HTTP status.
 * Absent or `None` request-body strings are the empty string here, because
 * every check the handlers make on them is a truthiness test.
 */
module AccessStore {
  import opened Wrappers
  import opened Text

  const Pending := "pending"
  const Approved := "approved"
  const Denied := "denied"
  const DefaultRole := "user"
  const Anonymous := "Anonymous"

  /** A document of `access_requests`. `role` is absent on requests created by the API. */
  datatype AccessRequest = AccessRequest(
    username: string,
    email: string,
    password: string,
    status: string,
    role: Option<string>,
    deniedReason: Option<string>)

  /** A document of `approved_users`. */
  datatype ApprovedUser = ApprovedUser(
    username: string,
    email: string,
    password: string,
    role: Option<string>)

  /** The user object a successful login returns. */
  datatype Profile = Profile(username: string, email: string, role: string)

  /** One element of a `predictions` list; only its `label`, here `classLabel`, is inspected. */
  datatype Prediction = Prediction(classLabel: Option<string>)

  /** A document of `classifications`. */
  datatype ClassificationRecord = ClassificationRecord(
    username: string,
    totalReviews: nat,
    fraudCount: nat,
    legitimateCount: nat,
    predictions: seq<Prediction>)

  /** An access request as the listing endpoint returns it: the password is projected out. */
  datatype RequestListing = RequestListing(
    username: string,
    email: string,
    status: string,
    role: Option<string>,
    deniedReason: Option<string>)

  datatype LoginReply = LoggedIn(user: Profile) | MissingCredentials | PendingApproval | Unauthorized {
    function Code(): int {
      match this
      case LoggedIn(_) => 200
      case MissingCredentials => 400
      case PendingApproval => 403
      case Unauthorized => 401
    }
  }

  datatype CreateReply = Created | MissingFields | UserExists | RequestExists {
    function Code(): int {
      if Created? then 201 else 400
    }
  }

  datatype StatusReply = AlreadyApproved | NoRequest | RequestStatus(status: string) {
    function Code(): int {
      if NoRequest? then 404 else 200
    }
  }

  datatype ApproveReply = ApproveNotFound | MarkedApproved | UserCreated {
    function Code(): int {
      if ApproveNotFound? then 404 else 200
    }
  }

  datatype DenyReply = DenyNotFound | DeniedRequest {
    function Code(): int {
      if DenyNotFound? then 404 else 200
    }
  }

  datatype SaveReply = NoPredictions | Saved(totalSaved: nat) {
    function Code(): int {
      if NoPredictions? then 400 else 201
    }
  }

  // ---------------------------------------------------------------------------
  // Queries
  // ---------------------------------------------------------------------------

  /** `find_one`: the position of the first element that satisfies `p`. */
  function FirstIndex<T>(s: seq<T>, p: T -> bool): (r: Option<nat>)
    ensures r.Some? ==> r.value < |s| && p(s[r.value])
    ensures r.Some? ==> forall k :: 0 <= k < r.value ==> !p(s[k])
    ensures r.None? <==> forall k :: 0 <= k < |s| ==> !p(s[k])
  {
    if s == [] then None
    else if p(s[0]) then Some(0)
    else match FirstIndex(s[1..], p)
      case Some(i) => Some(i + 1)
      case None => None
  }

  /** The filter `{'username': name}` on `access_requests`. */
  function RequestNamed(name: string): AccessRequest -> bool {
    (r: AccessRequest) => r.username == name
  }

  /** The filter `{'username': name, 'password': password}` on `approved_users`. */
  function UserWithLogin(name: string, password: string): ApprovedUser -> bool {
    (u: ApprovedUser) => u.username == name && u.password == password
  }

  /** The filter `{'username': name}` on `approved_users`. */
  function UserNamed(name: string): ApprovedUser -> bool {
    (u: ApprovedUser) => u.username == name
  }

  /** The filter `{'$or': [{'username': name}, {'email': email}]}` on `approved_users`. */
  function UserNamedOrMailed(name: string, email: string): ApprovedUser -> bool {
    (u: ApprovedUser) => u.username == name || u.email == email
  }

  /** The filter `{'$or': [{'username': name}, {'email': email}]}` on `access_requests`. */
  function RequestNamedOrMailed(name: string, email: string): AccessRequest -> bool {
    (r: AccessRequest) => r.username == name || r.email == email
  }

  /** The position of the request `find_one({'username': name})` returns. */
  function RequestIndex(requests: seq<AccessRequest>, name: string): Option<nat> {
    FirstIndex(requests, RequestNamed(name))
  }

  /** What a successful login reports about the user: the role defaults to `'user'`. */
  function ProfileOf(u: ApprovedUser): (p: Profile)
    ensures p.username == u.username && p.email == u.email
    ensures u.role.Some? ==> p.role == u.role.value
    ensures u.role.None? ==> p.role == "user"
  {
    Profile(u.username, u.email, u.role.GetOr(DefaultRole))
  }

  /** The role an approval gives: the body's role when non-empty, else the request's, else `'user'`. */
  function ChosenRole(bodyRole: string, requested: Option<string>): (role: string)
    ensures bodyRole != "" ==> role == bodyRole
    ensures bodyRole == "" && requested.Some? ==> role == requested.value
    ensures bodyRole == "" && requested.None? ==> role == "user"
  {
    if bodyRole != "" then bodyRole else requested.GetOr(DefaultRole)
  }

  /** The record an access request is turned into when it is approved. */
  function UserFrom(r: AccessRequest, role: string): (u: ApprovedUser)
    ensures u.username == r.username && u.email == r.email && u.password == r.password
    ensures u.role == Some(role)
  {
    ApprovedUser(r.username, r.email, r.password, Some(role))
  }

  /** The request as denied: a non-empty reason replaces the stored one, an empty one keeps it. */
  function DeniedWith(r: AccessRequest, reason: string): (d: AccessRequest)
    ensures d.status == "denied"
    ensures d.deniedReason == if reason != "" then Some(reason) else r.deniedReason
    ensures d.(status := r.status, deniedReason := r.deniedReason) == r
  {
    r.(status := Denied, deniedReason := if reason != "" then Some(reason) else r.deniedReason)
  }

  function ListingOf(r: AccessRequest): (l: RequestListing)
    ensures l.username == r.username && l.email == r.email && l.status == r.status
    ensures l.role == r.role && l.deniedReason == r.deniedReason
  {
    RequestListing(r.username, r.email, r.status, r.role, r.deniedReason)
  }

  /** A request the listing keeps: every one when no status is given, else those with that status. */
  predicate Listed(r: AccessRequest, status: string) {
    status == "" || r.status == status
  }

  /** The listing of `requests` under the `status` query parameter, in collection order. */
  function Listings(requests: seq<AccessRequest>, status: string): (out: seq<RequestListing>)
    ensures |out| <= |requests|
    decreases |requests|
  {
    if requests == [] then []
    else
      var init := Listings(requests[..|requests| - 1], status);
      var last := requests[|requests| - 1];
      if Listed(last, status) then init + [ListingOf(last)] else init
  }

  /** Every listed entry is the projection of a request that the filter keeps, and each kept request is listed. */
  lemma {:induction false} ListingsSound(requests: seq<AccessRequest>, status: string)
    ensures forall l :: l in Listings(requests, status) ==>
              exists r :: r in requests && Listed(r, status) && l == ListingOf(r)
    ensures forall r :: r in requests && Listed(r, status) ==> ListingOf(r) in Listings(requests, status)
    decreases |requests|
  {
    if requests != [] {
      var init := requests[..|requests| - 1];
      ListingsSound(init, status);
      forall r | r in requests && Listed(r, status)
        ensures ListingOf(r) in Listings(requests, status)
      {
        if r != requests[|requests| - 1] {
          assert r in init;
        }
      }
      forall l | l in Listings(requests, status)
        ensures exists r :: r in requests && Listed(r, status) && l == ListingOf(r)
      {
        if l in Listings(init, status) {
          var r :| r in init && Listed(r, status) && l == ListingOf(r);
          assert r in requests;
        } else {
          assert l == ListingOf(requests[|requests| - 1]);
        }
      }
    }
  }

  /** The number of predictions whose label is one of `labels`. */
  function CountLabels(predictions: seq<Prediction>, labels: set<string>): (n: nat)
    ensures n <= |predictions|
    decreases |predictions|
  {
    if predictions == [] then 0
    else
      var p := predictions[0];
      (if p.classLabel.Some? && p.classLabel.value in labels then 1 else 0) + CountLabels(predictions[1..], labels)
  }

  /** Predictions counted under two disjoint label sets are never counted twice. */
  lemma {:induction false} CountLabelsDisjoint(predictions: seq<Prediction>, a: set<string>, b: set<string>)
    requires a !! b
    ensures CountLabels(predictions, a) + CountLabels(predictions, b) <= |predictions|
    decreases |predictions|
  {
    if predictions != [] {
      CountLabelsDisjoint(predictions[1..], a, b);
    }
  }

  /** The record `save_classification` stores. */
  function Summarize(username: Option<string>, predictions: seq<Prediction>): (c: ClassificationRecord)
    ensures c.username == if username.Some? then username.value else "Anonymous"
    ensures c.totalReviews == |predictions| && c.predictions == predictions
    ensures c.fraudCount == CountLabels(predictions, {"Fraud"})
    ensures c.legitimateCount == CountLabels(predictions, {"Legitimate", "Benign"})
    ensures c.fraudCount + c.legitimateCount <= c.totalReviews
  {
    CountLabelsDisjoint(predictions, {"Fraud"}, {"Legitimate", "Benign"});
    ClassificationRecord(
      username.GetOr(Anonymous),
      |predictions|,
      CountLabels(predictions, {"Fraud"}),
      CountLabels(predictions, {"Legitimate", "Benign"}),
      predictions)
  }

  /** No two approved users share a username or an email. */
  predicate UsersDistinct(users: seq<ApprovedUser>) {
    forall i, j :: 0 <= i < j < |users| ==>
      users[i].username != users[j].username && users[i].email != users[j].email
  }

  /** No two access requests share a username or an email. */
  predicate RequestsDistinct(requests: seq<AccessRequest>) {
    forall i, j :: 0 <= i < j < |requests| ==>
      requests[i].username != requests[j].username && requests[i].email != requests[j].email
  }

  // ---------------------------------------------------------------------------
  // The database and its route handlers
  // ---------------------------------------------------------------------------

  class Database {
    var approvedUsers: seq<ApprovedUser>
    var accessRequests: seq<AccessRequest>
    var classifications: seq<ClassificationRecord>

    constructor (users: seq<ApprovedUser>, requests: seq<AccessRequest>)
      ensures approvedUsers == users && accessRequests == requests && classifications == []
    {
      approvedUsers := users;
      accessRequests := requests;
      classifications := [];
    }

    /**
     * POST /api/auth/login. The username is stripped, the password is not.
     * 200 for an approved user with exactly these credentials, 403 when the
     * user's request is still pending, 401 otherwise; 400, before any lookup,
     * when either is missing.
     */
    method Login(username: string, password: string) returns (reply: LoginReply)
      ensures reply == MissingCredentials <==> Strip(username) == "" || password == ""
      ensures reply.LoggedIn? <==>
        Strip(username) != "" && password != "" &&
        exists k :: 0 <= k < |approvedUsers| &&
          approvedUsers[k].username == Strip(username) && approvedUsers[k].password == password
      ensures reply.LoggedIn? ==>
        exists k :: 0 <= k < |approvedUsers| && approvedUsers[k].username == Strip(username) &&
          approvedUsers[k].password == password && reply.user == ProfileOf(approvedUsers[k]) &&
          forall j :: 0 <= j < k ==> !(approvedUsers[j].username == Strip(username) && approvedUsers[j].password == password)
      ensures reply == PendingApproval <==>
        Strip(username) != "" && password != "" &&
        (forall k :: 0 <= k < |approvedUsers| ==>
          !(approvedUsers[k].username == Strip(username) && approvedUsers[k].password == password)) &&
        match RequestIndex(accessRequests, Strip(username))
        case Some(k) => accessRequests[k].status == "pending"
        case None => false
    {
      var name := Strip(username);
      if name == "" || password == "" {
        return MissingCredentials;
      }
      var user := FirstIndex(approvedUsers, UserWithLogin(name, password));
      if user.Some? {
        return LoggedIn(ProfileOf(approvedUsers[user.value]));
      }
      var request := RequestIndex(accessRequests, name);
      if request.Some? && accessRequests[request.value].status == Pending {
        return PendingApproval;
      }
      return Unauthorized;
    }

    /**
     * POST /api/access-requests: a new pending request, unless a field is
     * missing or the username or email is already taken by an approved user
     * or by another request.
     */
    method CreateAccessRequest(username: string, email: string, password: string) returns (reply: CreateReply)
      modifies this`accessRequests
      ensures reply == MissingFields <==> username == "" || email == "" || password == ""
      ensures reply == UserExists <==>
        username != "" && email != "" && password != "" &&
        exists u :: u in approvedUsers && (u.username == username || u.email == email)
      ensures reply == RequestExists <==>
        username != "" && email != "" && password != "" &&
        (forall u :: u in approvedUsers ==> u.username != username && u.email != email) &&
        exists r :: r in old(accessRequests) && (r.username == username || r.email == email)
      ensures reply == Created ==>
        accessRequests == old(accessRequests) + [AccessRequest(username, email, password, "pending", None, None)]
      ensures reply != Created ==> accessRequests == old(accessRequests)
      ensures old(RequestsDistinct(accessRequests)) ==> RequestsDistinct(accessRequests)
    {
      if username == "" || email == "" || password == "" {
        return MissingFields;
      }
      var user := FirstIndex(approvedUsers, UserNamedOrMailed(username, email));
      if user.Some? {
        assert approvedUsers[user.value] in approvedUsers;
        return UserExists;
      }
      var request := FirstIndex(accessRequests, RequestNamedOrMailed(username, email));
      if request.Some? {
        assert accessRequests[request.value] in accessRequests;
        return RequestExists;
      }
      accessRequests := accessRequests + [AccessRequest(username, email, password, Pending, None, None)];
      reply := Created;
    }

    /**
     * GET /api/access-requests/<username>/status: `'approved'` when an approved
     * user has this username, whatever the request says; otherwise 404 without
     * a request, or the stored status unchanged.
     */
    method CheckRequestStatus(username: string) returns (reply: StatusReply)
      ensures reply == AlreadyApproved <==> exists u :: u in approvedUsers && u.username == username
      ensures reply == NoRequest <==>
        (forall u :: u in approvedUsers ==> u.username != username) &&
        forall r :: r in accessRequests ==> r.username != username
      ensures reply.RequestStatus? ==>
        match RequestIndex(accessRequests, username)
        case Some(k) => reply.status == accessRequests[k].status
        case None => false
    {
      var user := FirstIndex(approvedUsers, UserNamed(username));
      if user.Some? {
        assert approvedUsers[user.value] in approvedUsers;
        return AlreadyApproved;
      }
      var request := RequestIndex(accessRequests, username);
      if request.None? {
        return NoRequest;
      }
      assert accessRequests[request.value] in accessRequests;
      return RequestStatus(accessRequests[request.value].status);
    }

    /**
     * GET /api/access-requests: the requests, filtered by `status` when it is
     * non-empty, each without its password.
     */
    method ListAccessRequests(status: string) returns (results: seq<RequestListing>)
      ensures results == Listings(accessRequests, status)
    {
      results := [];
      var i := 0;
      while i < |accessRequests|
        invariant 0 <= i <= |accessRequests|
        invariant results == Listings(accessRequests[..i], status)
      {
        assert accessRequests[..i + 1][..i] == accessRequests[..i];
        if Listed(accessRequests[i], status) {
          results := results + [ListingOf(accessRequests[i])];
        }
        i := i + 1;
      }
      assert accessRequests[..i] == accessRequests;
    }

    /**
     * POST /api/access-requests/<username>/approve. Without a request: 404 and
     * no change. When an approved user already has the username or the
     * request's email: the request is only marked approved. Otherwise one
     * approved user is added, copied from the request with the chosen role,
     * and the request is marked approved.
     */
    method ApproveAccessRequest(username: string, bodyRole: string) returns (reply: ApproveReply)
      modifies this`approvedUsers, this`accessRequests
      ensures reply == ApproveNotFound <==> RequestIndex(old(accessRequests), username).None?
      ensures reply == ApproveNotFound ==>
        approvedUsers == old(approvedUsers) && accessRequests == old(accessRequests)
      ensures reply != ApproveNotFound ==>
        var k := RequestIndex(old(accessRequests), username).value;
        var req := old(accessRequests)[k];
        && (reply == MarkedApproved <==>
             exists u :: u in old(approvedUsers) && (u.username == username || u.email == req.email))
        && accessRequests == old(accessRequests)[k := req.(status := "approved")]
        && (reply == MarkedApproved ==> approvedUsers == old(approvedUsers))
        && (reply == UserCreated ==>
             approvedUsers == old(approvedUsers) + [UserFrom(req, ChosenRole(bodyRole, req.role))])
      ensures old(UsersDistinct(approvedUsers)) ==> UsersDistinct(approvedUsers)
      ensures old(RequestsDistinct(accessRequests)) ==> RequestsDistinct(accessRequests)
    {
      var request := RequestIndex(accessRequests, username);
      if request.None? {
        return ApproveNotFound;
      }
      var k := request.value;
      var req := accessRequests[k];
      var existing := FirstIndex(approvedUsers, UserNamedOrMailed(username, req.email));
      if existing.Some? {
        assert approvedUsers[existing.value] in approvedUsers;
        accessRequests := accessRequests[k := req.(status := Approved)];
        return MarkedApproved;
      }
      approvedUsers := approvedUsers + [UserFrom(req, ChosenRole(bodyRole, req.role))];
      accessRequests := accessRequests[k := req.(status := Approved)];
      reply := UserCreated;
    }

    /**
     * POST /api/access-requests/<username>/deny. Without a request: 404 and no
     * change. Otherwise the request's status becomes `'denied'`, and its
     * denial reason is set only when a non-empty reason is given.
     */
    method DenyAccessRequest(username: string, reason: string) returns (reply: DenyReply)
      modifies this`accessRequests
      ensures reply == DenyNotFound <==> RequestIndex(old(accessRequests), username).None?
      ensures reply == DenyNotFound ==> accessRequests == old(accessRequests)
      ensures reply == DeniedRequest ==>
        var k := RequestIndex(old(accessRequests), username).value;
        accessRequests == old(accessRequests)[k := DeniedWith(old(accessRequests)[k], reason)]
      ensures old(RequestsDistinct(accessRequests)) ==> RequestsDistinct(accessRequests)
    {
      var request := RequestIndex(accessRequests, username);
      if request.None? {
        return DenyNotFound;
      }
      var k := request.value;
      accessRequests := accessRequests[k := DeniedWith(accessRequests[k], reason)];
      reply := DeniedRequest;
    }

    /**
     * POST /api/classifications: 400 for an empty predictions list, otherwise
     * one record with the counts is stored.
     */
    method SaveClassification(username: Option<string>, predictions: seq<Prediction>) returns (reply: SaveReply)
      modifies this`classifications
      ensures reply == NoPredictions <==> predictions == []
      ensures reply == NoPredictions ==> classifications == old(classifications)
      ensures reply.Saved? ==>
        reply.totalSaved == |predictions| &&
        classifications == old(classifications) + [Summarize(username, predictions)]
    {
      if predictions == [] {
        return NoPredictions;
      }
      classifications := classifications + [Summarize(username, predictions)];
      reply := Saved(|predictions|);
    }
  }
}
