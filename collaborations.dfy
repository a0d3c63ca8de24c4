/**
 * collaborations/views.py: influencers send collaboration requests to artisans, one per pair;
 * the artisan accepts (which opens an active collaboration) or rejects a pending request; the
 * influencer of an active collaboration adds posts to it. Requests and collaborations are seen
 * only by the two parties.
 */
module Collaborations {

  import opened Basics
  import opened Accounts
  import opened AccessDecorators

  /** A calendar day (`DateField`). */
  type Date = nat

  datatype RequestStatus = Pending | Accepted | Rejected | Cancelled

  datatype CollabStatus = Live | OnHold | Completed | Terminated

  /**
   * A CollaborationRequest row. The commission and flat rate are in hundredths, as the
   * two-place Decimal columns hold them.
   */
  datatype CollabRequest = CollabRequest(
    influencer: InfluencerId,
    artisan: ArtisanId,
    title: string,
    description: string,
    terms: string,
    commission: int,
    flatRate: int,
    status: RequestStatus)

  /**
   * An ActiveCollaboration row. `startDate` is a NOT NULL column with no default, so a row whose
   * start date is None cannot be inserted. The model has no column for the proposed terms.
   */
  datatype ActiveCollab = ActiveCollab(
    influencer: InfluencerId,
    artisan: ArtisanId,
    request: Option<RequestId>,
    title: string,
    description: string,
    commission: Option<int>,
    flatRate: Option<int>,
    startDate: Option<Date>,
    status: CollabStatus)

  /**
   * The keyword arguments of `ActiveCollaboration.objects.create`: the ones that name a field of
   * the model, as a row, and the names of those that name no field.
   */
  datatype CreateCall = CreateCall(row: ActiveCollab, unknownKeywords: seq<string>)

  /** What `objects.create` does with a call. */
  datatype CreateResult =
    | Created(row: ActiveCollab)
    | UnexpectedKeywords(names: seq<string>)
    | NotNullViolation

  /** A CollaborationPost row (the image is not modelled). */
  datatype Post = Post(collab: CollabId, title: string, content: string, platform: string, url: Option<string>)

  /** What the new-request form posts; a key that was not posted is None. */
  datatype RequestForm = RequestForm(
    artisan: Option<ArtisanId>,
    title: Option<string>,
    description: Option<string>,
    terms: Option<string>,
    commission: Option<int>,
    flatRate: Option<int>)

  /** What the add-post form posts. */
  datatype PostForm = PostForm(title: Option<string>, content: Option<string>, platform: Option<string>, url: Option<string>)

  datatype CollabOutcome =
    | Redirected(gate: Gate)
    | MethodNotAllowed
    | NoInfluencerProfile
    | NoArtisanProfile
    | ShowForm
    | ArtisanNotFound
    | DuplicateRequest
    | IntegrityError
    | RequestSent(id: RequestId)
    | RequestNotFound
    | ShowRequest
    | NotYourRequest
    | AlreadyResponded
    | CollabAccepted(collab: CollabId)
    | CollabRejected
    | CollabNotFound
    | NoAccess
    | FieldsRequired
    | PostAdded

  /** What the list view shows: the requests and collaborations the user is party to. */
  datatype ListOutcome = ListRedirected(gate: Gate) | Listing(requests: set<RequestId>, active: set<CollabId>)

  /** `value or 0` on a posted amount: a blank or missing amount becomes zero. */
  function OrZero(x: Option<int>): (r: int)
    ensures x.None? ==> r == 0
    ensures x.Some? ==> r == x.value
  {
    if x.Some? then x.value else 0
  }

  /** A Python string is truthy when it was posted and is not empty. */
  predicate Given(s: Option<string>) {
    s.Some? && Filled(s.value)
  }

  /** A request's status changes only from pending, and nothing else about it changes. */
  predicate StatusStep(before: CollabRequest, after: CollabRequest) {
    && after.(status := before.status) == before
    && (after.status != before.status ==> before.status == Pending && after.status in {Accepted, Rejected})
  }

  /**
   * How the request table may move: no request disappears and each keeps its fields, its status
   * moving only from pending to accepted or rejected.
   */
  predicate Advances(before: map<RequestId, CollabRequest>, after: map<RequestId, CollabRequest>) {
    && before.Keys <= after.Keys
    && forall id :: id in before ==> StatusStep(before[id], after[id])
  }

  /** Moves compose: a request once answered stays answered the same way. */
  lemma AdvancesTransitive(a: map<RequestId, CollabRequest>, b: map<RequestId, CollabRequest>, c: map<RequestId, CollabRequest>)
    requires Advances(a, b) && Advances(b, c)
    ensures Advances(a, c)
    ensures forall id :: id in a && a[id].status != Pending ==> c[id] == a[id]
  {
    forall id | id in a
      ensures StatusStep(a[id], c[id])
    {
      assert StatusStep(a[id], b[id]) && StatusStep(b[id], c[id]);
    }
  }

  /**
   * `ActiveCollaboration.objects.create(**kwargs)`. Django's model constructor raises TypeError
   * for keywords that name no field, before anything reaches the database; the INSERT then fails
   * when the NOT NULL start date is missing.
   */
  function ObjectsCreate(c: CreateCall): (r: CreateResult)
    ensures r.Created? <==> c.unknownKeywords == [] && c.row.startDate.Some?
    ensures r.Created? ==> r.row == c.row
    ensures r.UnexpectedKeywords? <==> c.unknownKeywords != []
    ensures r.UnexpectedKeywords? ==> r.names == c.unknownKeywords
  {
    if c.unknownKeywords != [] then UnexpectedKeywords(c.unknownKeywords)
    else if c.row.startDate.None? then NotNullViolation
    else Created(c.row)
  }

  /** The keyword under which the accept view passes the request's proposed terms. */
  const FinancialTermsKeyword: string := "financial_terms"

  /**
   * The create call the accept view makes, AS WRITTEN: the request's parties, title and
   * description are copied, no start date is given, and the proposed terms are passed as
   * `financial_terms`, which is not a field of ActiveCollaboration.
   */
  function AcceptCallAsWritten(rid: RequestId, r: CollabRequest): (c: CreateCall)
    ensures c.row.request == Some(rid) && c.row.influencer == r.influencer && c.row.artisan == r.artisan
    ensures c.row.startDate.None? && c.unknownKeywords == [FinancialTermsKeyword]
  {
    CreateCall(ActiveCollab(r.influencer, r.artisan, Some(rid), r.title, r.description, None, None, None, Live),
      [FinancialTermsKeyword])
  }

  /** A row can be inserted only when its NOT NULL start date is given. */
  predicate Insertable(a: ActiveCollab) {
    a.startDate.Some?
  }

  /**
   * As written, every accept fails: the constructor refuses `financial_terms` with a TypeError,
   * and even without that keyword the row has no start date to insert.
   */
  lemma AcceptAsWrittenFails(rid: RequestId, r: CollabRequest)
    ensures ObjectsCreate(AcceptCallAsWritten(rid, r)) == UnexpectedKeywords([FinancialTermsKeyword])
    ensures ObjectsCreate(AcceptCallAsWritten(rid, r).(unknownKeywords := [])) == NotNullViolation
    ensures !Insertable(AcceptCallAsWritten(rid, r).row)
  {
  }

  /**
   * The evidently intended row: the same copy, starting on the day of acceptance, without the
   * keyword that has no column. The commission and flat rate are not copied, as in the source;
   * the proposed terms stay on the request.
   */
  function AcceptedRow(rid: RequestId, r: CollabRequest, today: Date): (a: ActiveCollab)
    ensures a == AcceptCallAsWritten(rid, r).row.(startDate := Some(today))
  {
    ActiveCollab(r.influencer, r.artisan, Some(rid), r.title, r.description, None, None, Some(today), Live)
  }

  /**
   * The corrected call, with only the row's own keywords, creates exactly the corrected row,
   * which copies the title and description and starts active.
   */
  lemma AcceptedRowInsertable(rid: RequestId, r: CollabRequest, today: Date)
    ensures Insertable(AcceptedRow(rid, r, today))
    ensures ObjectsCreate(CreateCall(AcceptedRow(rid, r, today), [])) == Created(AcceptedRow(rid, r, today))
    ensures var a := AcceptedRow(rid, r, today);
      && a.title == r.title && a.description == r.description
      && a.commission.None? && a.flatRate.None? && a.status == Live
  {
  }

  /** The user may open a request or collaboration between `influencer` and `artisan`. */
  predicate IsParty(user: User, influencerOf: map<UserId, InfluencerId>, artisanOf: map<UserId, ArtisanId>,
                    influencer: InfluencerId, artisan: ArtisanId) {
    if IsInfluencer(user) then user.id in influencerOf && influencerOf[user.id] == influencer
    else if IsArtisan(user) then user.id in artisanOf && artisanOf[user.id] == artisan
    else false
  }

  /**
   * One request per (influencer, artisan) pair; ids below the counters; each collaboration
   * opened from a request points at a distinct accepted request of the same pair; every post
   * belongs to an existing collaboration.
   */
  predicate BoardConsistent(
    artisanOf: map<UserId, ArtisanId>, artisans: set<ArtisanId>, requests: map<RequestId, CollabRequest>,
    actives: map<CollabId, ActiveCollab>, posts: seq<Post>, nextRequestId: RequestId, nextCollabId: CollabId)
  {
    && (forall u :: u in artisanOf ==> artisanOf[u] in artisans)
    && (forall a, b ::
          (a in requests && b in requests && requests[a].influencer == requests[b].influencer
           && requests[a].artisan == requests[b].artisan) ==> a == b)
    && (forall id :: id in requests ==> id < nextRequestId)
    && (forall c :: c in actives ==> c < nextCollabId)
    && (forall c :: c in actives && actives[c].request.Some? ==>
          var r := actives[c].request.value;
          && r in requests && requests[r].status == Accepted
          && requests[r].influencer == actives[c].influencer && requests[r].artisan == actives[c].artisan)
    && (forall c1, c2 ::
          (c1 in actives && c2 in actives && actives[c1].request.Some?
           && actives[c1].request == actives[c2].request) ==> c1 == c2)
    && (forall i :: 0 <= i < |posts| ==> posts[i].collab in actives)
  }

  /**
   * Accepting a pending request marks it accepted and opens one collaboration under a fresh id
   * pointing at it; the board stays consistent.
   */
  lemma AcceptKeepsConsistent(
    artisanOf: map<UserId, ArtisanId>, artisans: set<ArtisanId>, requests: map<RequestId, CollabRequest>,
    actives: map<CollabId, ActiveCollab>, posts: seq<Post>, nextRequestId: RequestId, nextCollabId: CollabId,
    id: RequestId, today: Date)
    requires BoardConsistent(artisanOf, artisans, requests, actives, posts, nextRequestId, nextCollabId)
    requires id in requests && requests[id].status == Pending
    ensures BoardConsistent(artisanOf, artisans, requests[id := requests[id].(status := Accepted)],
      actives[nextCollabId := AcceptedRow(id, requests[id], today)], posts, nextRequestId, nextCollabId + 1)
  {
    assert forall k :: k in actives && actives[k].request.Some? ==> actives[k].request.value != id;
  }

  /** Rejecting a pending request keeps the board consistent: no collaboration points at it. */
  lemma RejectKeepsConsistent(
    artisanOf: map<UserId, ArtisanId>, artisans: set<ArtisanId>, requests: map<RequestId, CollabRequest>,
    actives: map<CollabId, ActiveCollab>, posts: seq<Post>, nextRequestId: RequestId, nextCollabId: CollabId,
    id: RequestId)
    requires BoardConsistent(artisanOf, artisans, requests, actives, posts, nextRequestId, nextCollabId)
    requires id in requests && requests[id].status == Pending
    ensures BoardConsistent(artisanOf, artisans, requests[id := requests[id].(status := Rejected)],
      actives, posts, nextRequestId, nextCollabId)
  {
    assert forall k :: k in actives && actives[k].request.Some? ==> actives[k].request.value != id;
  }

  class CollabBoard {
    /** `InfluencerProfile.objects.get(user=...)`: each user's influencer profile, if any. */
    var influencerOf: map<UserId, InfluencerId>
    /** `ArtisanProfile.objects.get(user=...)`: each user's artisan profile, if any. */
    var artisanOf: map<UserId, ArtisanId>
    /** The artisan profiles that exist. */
    var artisans: set<ArtisanId>
    var requests: map<RequestId, CollabRequest>
    var actives: map<CollabId, ActiveCollab>
    var posts: seq<Post>
    var nextRequestId: RequestId
    var nextCollabId: CollabId

    predicate Valid()
      reads this
    {
      BoardConsistent(artisanOf, artisans, requests, actives, posts, nextRequestId, nextCollabId)
    }

    constructor ()
      ensures Valid()
      ensures influencerOf == map[] && artisanOf == map[] && artisans == {}
      ensures requests == map[] && actives == map[] && posts == []
    {
      influencerOf := map[];
      artisanOf := map[];
      artisans := {};
      requests := map[];
      actives := map[];
      posts := [];
      nextRequestId := 0;
      nextCollabId := 0;
    }

    /** The existing request, if any, between an influencer and an artisan. */
    predicate PairTaken(influencer: InfluencerId, artisan: ArtisanId)
      reads this
    {
      exists id :: id in requests && requests[id].influencer == influencer && requests[id].artisan == artisan
    }

    /**
     * `collaborations_list_view`: an influencer sees the requests and collaborations sent under
     * their influencer profile, an artisan those addressed to their artisan profile, and anyone
     * else is sent to the dashboard.
     */
    function List(req: Requester): (r: ListOutcome)
      reads this
      ensures req.Anonymous? ==> r == ListRedirected(ToSignin)
      ensures req.Authenticated? && !IsInfluencer(req.user) && !IsArtisan(req.user) ==> r == ListRedirected(ToDashboard)
      ensures r.Listing? ==> forall id :: id in r.requests <==>
        id in requests && IsParty(req.user, influencerOf, artisanOf, requests[id].influencer, requests[id].artisan)
      ensures r.Listing? ==> forall c :: c in r.active <==>
        c in actives && IsParty(req.user, influencerOf, artisanOf, actives[c].influencer, actives[c].artisan)
    {
      if req.Anonymous? then ListRedirected(ToSignin)
      else
        var u := req.user;
        if IsInfluencer(u) then
          Listing(
            set id | id in requests && u.id in influencerOf && requests[id].influencer == influencerOf[u.id],
            set c | c in actives && u.id in influencerOf && actives[c].influencer == influencerOf[u.id])
        else if IsArtisan(u) then
          Listing(
            set id | id in requests && u.id in artisanOf && requests[id].artisan == artisanOf[u.id],
            set c | c in actives && u.id in artisanOf && actives[c].artisan == artisanOf[u.id])
        else ListRedirected(ToDashboard)
    }

    /**
     * `collaboration_request_detail_view`: a missing request, or one the user is not party to,
     * is refused; a user who is neither influencer nor artisan goes to the dashboard.
     */
    function RequestDetail(req: Requester, id: RequestId): (r: CollabOutcome)
      reads this
      ensures r == ShowRequest <==> (req.Authenticated? && id in requests &&
        IsParty(req.user, influencerOf, artisanOf, requests[id].influencer, requests[id].artisan))
    {
      if req.Anonymous? then Redirected(ToSignin)
      else if id !in requests then RequestNotFound
      else if !IsInfluencer(req.user) && !IsArtisan(req.user) then Redirected(ToDashboard)
      else if !IsParty(req.user, influencerOf, artisanOf, requests[id].influencer, requests[id].artisan) then NoAccess
      else ShowRequest
    }

    /**
     * `new_collaboration_request_view`. `post` is None for a GET. A title, description or terms
     * that was not posted cannot be stored in its NOT NULL column.
     */
    method NewRequest(req: Requester, post: Option<RequestForm>) returns (outcome: CollabOutcome)
      requires Valid()
      modifies this
      ensures Valid()
      ensures outcome == (
        if InfluencerRequired(req) != Admit then Redirected(InfluencerRequired(req))
        else if req.user.id !in old(influencerOf) then NoInfluencerProfile
        else if post.None? then ShowForm
        else if post.value.artisan.None? || post.value.artisan.value !in old(artisans) then ArtisanNotFound
        else if old(PairTaken(influencerOf[req.user.id], post.value.artisan.value)) then DuplicateRequest
        else if post.value.title.None? || post.value.description.None? || post.value.terms.None? then IntegrityError
        else RequestSent(old(nextRequestId)))
      ensures outcome.RequestSent? ==>
        var f := post.value;
        && outcome.id !in old(requests)
        && requests == old(requests)[outcome.id := CollabRequest(
             old(influencerOf)[req.user.id], f.artisan.value, f.title.value, f.description.value, f.terms.value,
             OrZero(f.commission), OrZero(f.flatRate), Pending)]
        && nextRequestId == old(nextRequestId) + 1
      ensures !outcome.RequestSent? ==> requests == old(requests) && nextRequestId == old(nextRequestId)
      ensures Advances(old(requests), requests)
      ensures actives == old(actives) && posts == old(posts) && nextCollabId == old(nextCollabId)
      ensures influencerOf == old(influencerOf) && artisanOf == old(artisanOf) && artisans == old(artisans)
    {
      var g := InfluencerRequired(req);
      if g != Admit {
        return Redirected(g);
      }
      var u := req.user.id;
      if u !in influencerOf {
        return NoInfluencerProfile;
      }
      var influencer := influencerOf[u];
      if post.None? {
        return ShowForm;
      }
      var f := post.value;
      if f.artisan.None? || f.artisan.value !in artisans {
        return ArtisanNotFound;
      }
      var artisan := f.artisan.value;
      if PairTaken(influencer, artisan) {
        return DuplicateRequest;
      }
      if f.title.None? || f.description.None? || f.terms.None? {
        return IntegrityError;
      }
      var id := nextRequestId;
      requests := requests[id := CollabRequest(influencer, artisan, f.title.value, f.description.value,
        f.terms.value, OrZero(f.commission), OrZero(f.flatRate), Pending)];
      nextRequestId := id + 1;
      outcome := RequestSent(id);
    }

    /**
     * The checks accept and reject share, giving the refusal if one applies: the request exists,
     * the requester has an artisan profile, it is the request's artisan, and the request is
     * still pending.
     */
    function RespondRefusal(req: Requester, isPost: bool, id: RequestId): (r: Option<CollabOutcome>)
      reads this
      ensures r.None? <==> (ArtisanRequired(req) == Admit && isPost && id in requests
        && req.user.id in artisanOf && requests[id].artisan == artisanOf[req.user.id]
        && requests[id].status == Pending)
    {
      if ArtisanRequired(req) != Admit then Some(Redirected(ArtisanRequired(req)))
      else if !isPost then Some(MethodNotAllowed)
      else if id !in requests then Some(RequestNotFound)
      else if req.user.id !in artisanOf then Some(NoArtisanProfile)
      else if requests[id].artisan != artisanOf[req.user.id] then Some(NotYourRequest)
      else if requests[id].status != Pending then Some(AlreadyResponded)
      else None
    }

    /**
     * `accept_collaboration_view`, as corrected: the `financial_terms` keyword is dropped and the
     * collaboration starts on `today`. The request's own artisan opens one active collaboration
     * for a pending request and marks it accepted.
     */
    method Accept(req: Requester, isPost: bool, id: RequestId, today: Date) returns (outcome: CollabOutcome)
      requires Valid()
      modifies this
      ensures Valid()
      ensures outcome == if old(RespondRefusal(req, isPost, id)).None? then CollabAccepted(old(nextCollabId))
        else old(RespondRefusal(req, isPost, id)).value
      ensures outcome.CollabAccepted? ==>
        && outcome.collab !in old(actives)
        && actives == old(actives)[outcome.collab := AcceptedRow(id, old(requests)[id], today)]
        && requests == old(requests)[id := old(requests)[id].(status := Accepted)]
        && nextCollabId == old(nextCollabId) + 1
      ensures !outcome.CollabAccepted? ==> actives == old(actives) && requests == old(requests) && nextCollabId == old(nextCollabId)
      ensures Advances(old(requests), requests)
      ensures posts == old(posts) && nextRequestId == old(nextRequestId)
      ensures influencerOf == old(influencerOf) && artisanOf == old(artisanOf) && artisans == old(artisans)
    {
      var refusal := RespondRefusal(req, isPost, id);
      if refusal.Some? {
        return refusal.value;
      }
      var r := requests[id];
      var c := nextCollabId;
      AcceptKeepsConsistent(artisanOf, artisans, requests, actives, posts, nextRequestId, c, id, today);
      actives := actives[c := AcceptedRow(id, r, today)];
      requests := requests[id := r.(status := Accepted)];
      nextCollabId := c + 1;
      outcome := CollabAccepted(c);
    }

    /**
     * `reject_collaboration_view`: the same checks, then the request is marked rejected. The
     * posted response is assigned to an attribute that is not a column, so it is not stored.
     */
    method Reject(req: Requester, isPost: bool, id: RequestId, response: string) returns (outcome: CollabOutcome)
      requires Valid()
      modifies this
      ensures Valid()
      ensures outcome == if old(RespondRefusal(req, isPost, id)).None? then CollabRejected
        else old(RespondRefusal(req, isPost, id)).value
      ensures requests == if outcome == CollabRejected
        then old(requests)[id := old(requests)[id].(status := Rejected)]
        else old(requests)
      ensures Advances(old(requests), requests)
      ensures actives == old(actives) && posts == old(posts)
      ensures nextRequestId == old(nextRequestId) && nextCollabId == old(nextCollabId)
      ensures influencerOf == old(influencerOf) && artisanOf == old(artisanOf) && artisans == old(artisans)
    {
      var refusal := RespondRefusal(req, isPost, id);
      if refusal.Some? {
        return refusal.value;
      }
      RejectKeepsConsistent(artisanOf, artisans, requests, actives, posts, nextRequestId, nextCollabId, id);
      requests := requests[id := requests[id].(status := Rejected)];
      outcome := CollabRejected;
    }

    /**
     * `add_collaboration_post_view`: only the collaboration's own influencer may post, and the
     * title, content and platform must all be non-empty.
     */
    method AddPost(req: Requester, isPost: bool, c: CollabId, form: PostForm) returns (outcome: CollabOutcome)
      requires Valid()
      modifies this
      ensures Valid()
      ensures outcome == (
        if InfluencerRequired(req) != Admit then Redirected(InfluencerRequired(req))
        else if !isPost then MethodNotAllowed
        else if c !in old(actives) then CollabNotFound
        else if req.user.id !in old(influencerOf) then NoInfluencerProfile
        else if old(actives)[c].influencer != old(influencerOf)[req.user.id] then NoAccess
        else if !(Given(form.title) && Given(form.content) && Given(form.platform)) then FieldsRequired
        else PostAdded)
      ensures posts == if outcome == PostAdded
        then old(posts) + [Post(c, form.title.value, form.content.value, form.platform.value, form.url)]
        else old(posts)
      ensures requests == old(requests) && actives == old(actives)
      ensures nextRequestId == old(nextRequestId) && nextCollabId == old(nextCollabId)
      ensures influencerOf == old(influencerOf) && artisanOf == old(artisanOf) && artisans == old(artisans)
    {
      var g := InfluencerRequired(req);
      if g != Admit {
        return Redirected(g);
      }
      if !isPost {
        return MethodNotAllowed;
      }
      if c !in actives {
        return CollabNotFound;
      }
      if req.user.id !in influencerOf {
        return NoInfluencerProfile;
      }
      if actives[c].influencer != influencerOf[req.user.id] {
        return NoAccess;
      }
      if !(Given(form.title) && Given(form.content) && Given(form.platform)) {
        return FieldsRequired;
      }
      posts := posts + [Post(c, form.title.value, form.content.value, form.platform.value, form.url)];
      outcome := PostAdded;
    }
  }

  /**
   * `unique_together = ['influencer', 'artisan']` on active collaborations follows from the
   * board's invariant: two collaborations opened from requests for the same pair are one.
   */
  lemma OneActivePerPair(board: CollabBoard, c1: CollabId, c2: CollabId)
    requires board.Valid()
    requires c1 in board.actives && c2 in board.actives
    requires board.actives[c1].request.Some? && board.actives[c2].request.Some?
    requires board.actives[c1].influencer == board.actives[c2].influencer
    requires board.actives[c1].artisan == board.actives[c2].artisan
    ensures c1 == c2
  {
    var r1, r2 := board.actives[c1].request.value, board.actives[c2].request.value;
    assert r1 in board.requests && r2 in board.requests;
    assert board.requests[r1].influencer == board.requests[r2].influencer;
    assert board.requests[r1].artisan == board.requests[r2].artisan;
  }

  /**
   * A request the list shows to a user is one its detail view opens for them, and the other
   * way round.
   */
  lemma ListedIffViewable(board: CollabBoard, req: Requester, id: RequestId)
    requires board.List(req).Listing?
    ensures id in board.List(req).requests <==> board.RequestDetail(req, id) == ShowRequest
  {
  }

  /**
   * Two influencers with different profiles never see the same request: each request is shown
   * to the influencer who sent it only.
   */
  lemma InfluencerListsDisjoint(board: CollabBoard, u1: User, u2: User, id: RequestId)
    requires IsInfluencer(u1) && IsInfluencer(u2)
    requires u1.id in board.influencerOf && u2.id in board.influencerOf
    requires board.influencerOf[u1.id] != board.influencerOf[u2.id]
    ensures !(id in board.List(Authenticated(u1)).requests && id in board.List(Authenticated(u2)).requests)
  {
  }
}
