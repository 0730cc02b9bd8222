/** What a trail proves. `AuditOf` reads one intent's ledger events in order and keeps
    what a later question needs; the lemmas say which events, in which order, each
    field stands for. Every field but `risk` and `replay` only ever grows, so events
    that other workers slip in between cannot take anything back. */
module Audit {
  import opened Actions
  import opened Policy
  import opened Machine
  import opened Plane

  /** What a confirmation agreed to: which token, when, and to which action. */
  datatype Consent = Consent(token: Id, at: Instant, action: CreatePix)

  datatype Audit = Audit(
    owner: Option<Principal>,
    openers: set<Principal>,
    risk: Option<RiskLevel>,
    approved: Option<RiskLevel>,
    issued: set<(Id, Digest)>,
    confirmed: set<Consent>,
    authorized: set<Consent>,
    requested: set<Consent>,
    stepUps: nat,
    lawful: bool,
    reached: set<State>,
    replay: Option<State>)

  const NOTHING := Audit(None, {}, None, None, {}, {}, {}, {}, 0, true, {}, Some(Created))

  /** What an assurance is enough for. */
  predicate Sufficient(action: CreatePix, assurance: Assurance) {
    action.amount > STEP_UP_ABOVE ==> assurance == Strong
  }

  function Cleared(given: set<Consent>, assurance: Assurance): set<Consent> {
    set c | c in given && Sufficient(c.action, assurance)
  }

  function ObserveHop(a: Audit, from: State, hop: Hop, to: State, token: Option<Id>, digest: Option<Digest>): Audit {
    var legal := Target(from, hop) == Some(to);
    a.(issued := if hop == AwaitConfirmation && token.Some? && digest.Some? && a.approved.Some?
                 then a.issued + {(token.value, digest.value)} else a.issued,
       stepUps := a.stepUps + if hop == RequireStepUp then 1 else 0,
       lawful := a.lawful && legal,
       reached := a.reached + {to},
       replay := if legal && a.replay == Some(from) then Some(to) else None)
  }

  function Observe(secret: string, a: Audit, e: Entry): Audit {
    match e
    case Request(customer, session, _, _) =>
      var opener := Principal(customer, session);
      a.(owner := if a.owner.None? then Some(opener) else a.owner, openers := a.openers + {opener})
    case RiskScored(risk) => a.(risk := Some(risk.level))
    case PolicyVerdict(verdict) =>
      if verdict.decision == RequireConfirmation then
        a.(approved := Some(if a.risk.Some? then a.risk.value else LowRisk))
      else a
    case Transition(from, hop, to, token, digest) => ObserveHop(a, from, hop, to, token, digest)
    case Confirmation(token, customer, session, _, at, action) =>
      if a.owner == Some(Principal(customer, session)) && (token, ActionDigest(action, secret)) in a.issued then
        a.(confirmed := a.confirmed + {Consent(token, at, action)})
      else a
    case Authorization(assurance) => a.(authorized := a.authorized + Cleared(a.confirmed, assurance))
    case ExecutionRequest(_) => a.(requested := a.requested + a.authorized)
    case _ => a
  }

  function AuditOf(secret: string, trail: seq<Entry>): Audit {
    if trail == [] then NOTHING
    else Observe(secret, AuditOf(secret, trail[..|trail| - 1]), trail[|trail| - 1])
  }

  lemma AuditAppend(secret: string, trail: seq<Entry>, e: Entry)
    ensures AuditOf(secret, trail + [e]) == Observe(secret, AuditOf(secret, trail), e)
  {
    assert (trail + [e])[..|trail|] == trail;
  }

  // ---------------------------------------------------------------- what the fields stand for

  predicate Approves(e: Entry) {
    e.PolicyVerdict? && e.verdict.decision == RequireConfirmation
  }

  predicate Issues(e: Entry, token: Id, digest: Digest) {
    e.Transition? && e.hop == AwaitConfirmation && e.token == Some(token) && e.digest == Some(digest)
  }

  predicate Consents(e: Entry, owner: Principal, given: Consent) {
    && e.Confirmation?
    && Principal(e.confirmedBy, e.session) == owner
    && Consent(e.confirmationId, e.at, e.action) == given
  }

  /** Policy asked for confirmation, then the token was issued against the digest. */
  ghost predicate IssuedAt(trail: seq<Entry>, token: Id, digest: Digest, i: nat, j: nat) {
    i < j < |trail| && Approves(trail[i]) && Issues(trail[j], token, digest)
  }

  /** ... then the trail's own principal confirmed that token for that very action. */
  ghost predicate ConsentedAt(secret: string, trail: seq<Entry>, given: Consent, i: nat, j: nat, k: nat) {
    && j < k < |trail|
    && IssuedAt(trail, given.token, ActionDigest(given.action, secret), i, j)
    && TrailOwner(trail[..k]).Some?
    && Consents(trail[k], TrailOwner(trail[..k]).value, given)
  }

  predicate Authorizes(e: Entry, given: Consent) {
    e.Authorization? && Sufficient(given.action, e.assurance)
  }

  /** ... then it was authorized, at an assurance that is enough for it. */
  ghost predicate AuthorizedAt(secret: string, trail: seq<Entry>, given: Consent, i: nat, j: nat, k: nat, m: nat) {
    k < m < |trail| && ConsentedAt(secret, trail, given, i, j, k) && Authorizes(trail[m], given)
  }

  /** ... then execution was requested. */
  ghost predicate RequestedAt(secret: string, trail: seq<Entry>, given: Consent,
                              i: nat, j: nat, k: nat, m: nat, l: nat) {
    m < l < |trail| && AuthorizedAt(secret, trail, given, i, j, k, m) && trail[l].ExecutionRequest?
  }

  lemma {:induction false} OwnerAppend(trail: seq<Entry>, e: Entry)
    ensures TrailOwner(trail + [e]) ==
      if TrailOwner(trail).Some? then TrailOwner(trail)
      else if e.Request? then Some(Principal(e.customer, e.session)) else None
  {
    if trail != [] {
      assert (trail + [e])[1..] == trail[1..] + [e];
      OwnerAppend(trail[1..], e);
    }
  }

  lemma {:induction false} OwnerIsFirstRequest(secret: string, trail: seq<Entry>)
    ensures AuditOf(secret, trail).owner == TrailOwner(trail)
  {
    if trail != [] {
      var before, last := trail[..|trail| - 1], trail[|trail| - 1];
      OwnerIsFirstRequest(secret, before);
      OwnerAppend(before, last);
      assert before + [last] == trail;
    }
  }

  lemma OpenersObserved(secret: string, a: Audit, e: Entry, p: Principal)
    ensures p in Observe(secret, a, e).openers
       <==> p in a.openers || (e.Request? && Principal(e.customer, e.session) == p)
  {
  }

  lemma {:induction false} OpenersMean(secret: string, trail: seq<Entry>, p: Principal)
    ensures p in AuditOf(secret, trail).openers <==> exists e | e in trail ::
        e.Request? && Principal(e.customer, e.session) == p
  {
    hide Observe;
    if trail != [] {
      var before, last := trail[..|trail| - 1], trail[|trail| - 1];
      OpenersObserved(secret, AuditOf(secret, before), last, p);
      OpenersMean(secret, before, p);
      assert trail == before + [last];
      assert forall e :: e in trail <==> e in before || e == last;
    }
  }

  lemma ApprovalObserved(secret: string, a: Audit, e: Entry)
    ensures Observe(secret, a, e).approved.Some? <==> a.approved.Some? || Approves(e)
  {
  }

  lemma {:induction false} ApprovedMeans(secret: string, trail: seq<Entry>)
    ensures AuditOf(secret, trail).approved.Some? <==> exists i | 0 <= i < |trail| :: Approves(trail[i])
  {
    hide Observe, Approves;
    if trail != [] {
      var before, last := trail[..|trail| - 1], trail[|trail| - 1];
      ApprovalObserved(secret, AuditOf(secret, before), last);
      ApprovedMeans(secret, before);
      assert forall i | 0 <= i < |before| :: before[i] == trail[i];
      assert Approves(last) ==> Approves(trail[|trail| - 1]);
      if AuditOf(secret, before).approved.Some? {
        var i :| 0 <= i < |before| && Approves(before[i]);
        assert Approves(trail[i]);
      }
    }
  }

  lemma {:induction false} IssuedMeans(secret: string, trail: seq<Entry>, token: Id, digest: Digest)
    ensures (token, digest) in AuditOf(secret, trail).issued <==> exists i: nat, j: nat ::
        IssuedAt(trail, token, digest, i, j)
  {
    if trail != [] {
      var before, last := trail[..|trail| - 1], trail[|trail| - 1];
      var a := AuditOf(secret, before);
      IssuedMeans(secret, before, token, digest);
      ApprovedMeans(secret, before);
      if (token, digest) in a.issued {
        var i: nat, j: nat :| IssuedAt(before, token, digest, i, j);
        assert IssuedAt(trail, token, digest, i, j);
      } else if Issues(last, token, digest) && a.approved.Some? {
        var i :| 0 <= i < |before| && Approves(before[i]);
        assert IssuedAt(trail, token, digest, i, |trail| - 1);
      }
      forall i: nat, j: nat | IssuedAt(trail, token, digest, i, j)
        ensures (token, digest) in AuditOf(secret, trail).issued
      {
        assert before[i] == trail[i];
        if j < |before| {
          assert IssuedAt(before, token, digest, i, j);
        }
      }
    } else {
      assert forall i: nat, j: nat :: !IssuedAt(trail, token, digest, i, j);
    }
  }

  lemma ConsentExtends(secret: string, trail: seq<Entry>, e: Entry, given: Consent, i: nat, j: nat, k: nat)
    requires k < |trail|
    ensures ConsentedAt(secret, trail + [e], given, i, j, k) <==> ConsentedAt(secret, trail, given, i, j, k)
  {
    assert (trail + [e])[..k] == trail[..k];
  }

  lemma {:induction false} ConfirmedMeans(secret: string, trail: seq<Entry>, given: Consent)
    ensures given in AuditOf(secret, trail).confirmed
       <==> exists i: nat, j: nat, k: nat :: ConsentedAt(secret, trail, given, i, j, k)
  {
    if trail != [] {
      var before, last := trail[..|trail| - 1], trail[|trail| - 1];
      assert trail == before + [last];
      var a := AuditOf(secret, before);
      ConfirmedMeans(secret, before, given);
      OwnerIsFirstRequest(secret, before);
      if given in a.confirmed {
        var i: nat, j: nat, k: nat :| ConsentedAt(secret, before, given, i, j, k);
        ConsentExtends(secret, before, last, given, i, j, k);
      } else if given in AuditOf(secret, trail).confirmed {
        ConsentNow(secret, before, last);
      }
      forall i: nat, j: nat, k: nat | ConsentedAt(secret, trail, given, i, j, k)
        ensures given in AuditOf(secret, trail).confirmed
      {
        if k < |before| {
          ConsentExtends(secret, before, last, given, i, j, k);
        } else {
          assert IssuedAt(before, given.token, ActionDigest(given.action, secret), i, j) by {
            assert before[i] == trail[i] && before[j] == trail[j];
          }
          IssuedMeans(secret, before, given.token, ActionDigest(given.action, secret));
        }
      }
    }
  }

  lemma ConsentNow(secret: string, before: seq<Entry>, last: Entry)
    requires last.Confirmation?
    requires TrailOwner(before) == Some(Principal(last.confirmedBy, last.session))
    requires (last.confirmationId, ActionDigest(last.action, secret)) in AuditOf(secret, before).issued
    ensures exists i: nat, j: nat ::
      ConsentedAt(secret, before + [last], Consent(last.confirmationId, last.at, last.action), i, j, |before|)
  {
    var trail := before + [last];
    IssuedMeans(secret, before, last.confirmationId, ActionDigest(last.action, secret));
    var i: nat, j: nat :| IssuedAt(before, last.confirmationId, ActionDigest(last.action, secret), i, j);
    assert trail[i] == before[i] && trail[j] == before[j];
    assert trail[..|before|] == before;
    assert ConsentedAt(secret, trail, Consent(last.confirmationId, last.at, last.action), i, j, |before|);
  }

  lemma AuthorizedExtends(secret: string, trail: seq<Entry>, e: Entry, given: Consent, i: nat, j: nat, k: nat, m: nat)
    requires m < |trail|
    ensures AuthorizedAt(secret, trail + [e], given, i, j, k, m) <==> AuthorizedAt(secret, trail, given, i, j, k, m)
  {
    if k < m {
      ConsentExtends(secret, trail, e, given, i, j, k);
    }
  }

  lemma AuthorizedForward(secret: string, before: seq<Entry>, last: Entry, given: Consent)
    requires exists i: nat, j: nat, k: nat, m: nat :: AuthorizedAt(secret, before, given, i, j, k, m)
    ensures exists i: nat, j: nat, k: nat, m: nat :: AuthorizedAt(secret, before + [last], given, i, j, k, m)
  {
    var i: nat, j: nat, k: nat, m: nat :| AuthorizedAt(secret, before, given, i, j, k, m);
    AuthorizedExtends(secret, before, last, given, i, j, k, m);
  }

  lemma AuthorizedNow(secret: string, before: seq<Entry>, last: Entry, given: Consent)
    requires Authorizes(last, given) && given in AuditOf(secret, before).confirmed
    ensures exists i: nat, j: nat, k: nat, m: nat :: AuthorizedAt(secret, before + [last], given, i, j, k, m)
  {
    ConfirmedMeans(secret, before, given);
    var i: nat, j: nat, k: nat :| ConsentedAt(secret, before, given, i, j, k);
    ConsentExtends(secret, before, last, given, i, j, k);
    assert AuthorizedAt(secret, before + [last], given, i, j, k, |before|);
  }

  lemma AuthorizedBack(secret: string, before: seq<Entry>, last: Entry, given: Consent, i: nat, j: nat, k: nat, m: nat)
    requires AuthorizedAt(secret, before + [last], given, i, j, k, m)
    ensures AuthorizedAt(secret, before, given, i, j, k, m)
         || (Authorizes(last, given) && given in AuditOf(secret, before).confirmed)
  {
    ConsentExtends(secret, before, last, given, i, j, k);
    ConfirmedMeans(secret, before, given);
  }

  lemma AuthorizationObserved(secret: string, a: Audit, e: Entry, given: Consent)
    ensures given in Observe(secret, a, e).authorized
       <==> given in a.authorized || (Authorizes(e, given) && given in a.confirmed)
  {
  }

  lemma {:induction false} AuthorizedMeans(secret: string, trail: seq<Entry>, given: Consent)
    ensures given in AuditOf(secret, trail).authorized
       <==> exists i: nat, j: nat, k: nat, m: nat :: AuthorizedAt(secret, trail, given, i, j, k, m)
  {
    hide Observe, ConsentedAt, Authorizes;
    if trail != [] {
      var before, last := trail[..|trail| - 1], trail[|trail| - 1];
      assert trail == before + [last];
      var a := AuditOf(secret, before);
      AuthorizationObserved(secret, a, last, given);
      AuthorizedMeans(secret, before, given);
      if given in a.authorized {
        AuthorizedForward(secret, before, last, given);
      } else if Authorizes(last, given) && given in a.confirmed {
        AuthorizedNow(secret, before, last, given);
      }
      forall i: nat, j: nat, k: nat, m: nat | AuthorizedAt(secret, trail, given, i, j, k, m)
        ensures given in AuditOf(secret, trail).authorized
      {
        AuthorizedBack(secret, before, last, given, i, j, k, m);
      }
    }
  }

  lemma RequestedForward(secret: string, before: seq<Entry>, last: Entry, given: Consent)
    requires exists i: nat, j: nat, k: nat, m: nat, l: nat :: RequestedAt(secret, before, given, i, j, k, m, l)
    ensures exists i: nat, j: nat, k: nat, m: nat, l: nat :: RequestedAt(secret, before + [last], given, i, j, k, m, l)
  {
    var i: nat, j: nat, k: nat, m: nat, l: nat :| RequestedAt(secret, before, given, i, j, k, m, l);
    AuthorizedExtends(secret, before, last, given, i, j, k, m);
    assert RequestedAt(secret, before + [last], given, i, j, k, m, l);
  }

  lemma RequestedNow(secret: string, before: seq<Entry>, last: Entry, given: Consent)
    requires last.ExecutionRequest? && given in AuditOf(secret, before).authorized
    ensures exists i: nat, j: nat, k: nat, m: nat, l: nat :: RequestedAt(secret, before + [last], given, i, j, k, m, l)
  {
    AuthorizedMeans(secret, before, given);
    var i: nat, j: nat, k: nat, m: nat :| AuthorizedAt(secret, before, given, i, j, k, m);
    AuthorizedExtends(secret, before, last, given, i, j, k, m);
    assert RequestedAt(secret, before + [last], given, i, j, k, m, |before|);
  }

  lemma RequestedBack(secret: string, before: seq<Entry>, last: Entry, given: Consent,
                      i: nat, j: nat, k: nat, m: nat, l: nat)
    requires RequestedAt(secret, before + [last], given, i, j, k, m, l)
    ensures RequestedAt(secret, before, given, i, j, k, m, l)
         || (last.ExecutionRequest? && given in AuditOf(secret, before).authorized)
  {
    AuthorizedExtends(secret, before, last, given, i, j, k, m);
    AuthorizedMeans(secret, before, given);
  }

  lemma NoneRequested(secret: string, given: Consent)
    ensures forall i: nat, j: nat, k: nat, m: nat, l: nat :: !RequestedAt(secret, [], given, i, j, k, m, l)
  {
  }

  lemma RequestObserved(secret: string, a: Audit, e: Entry, given: Consent)
    ensures given in Observe(secret, a, e).requested
       <==> given in a.requested || (e.ExecutionRequest? && given in a.authorized)
  {
  }

  /** A consent is in `requested` exactly when the trail holds, in this order, a policy
      event asking for confirmation, the issue of that token against that action's digest,
      the confirmation of that token, at that instant, by the trail's own customer and
      session and for that very action, its authorization at an assurance that is enough
      for the amount, and an execution request. */
  lemma {:induction false} RequestedMeans(secret: string, trail: seq<Entry>, given: Consent)
    ensures given in AuditOf(secret, trail).requested
       <==> exists i: nat, j: nat, k: nat, m: nat, l: nat :: RequestedAt(secret, trail, given, i, j, k, m, l)
  {
    hide Observe, RequestedAt;
    if trail == [] {
      NoneRequested(secret, given);
    } else {
      var before, last := trail[..|trail| - 1], trail[|trail| - 1];
      assert trail == before + [last];
      var a := AuditOf(secret, before);
      RequestObserved(secret, a, last, given);
      RequestedMeans(secret, before, given);
      if given in a.requested {
        RequestedForward(secret, before, last, given);
      } else if last.ExecutionRequest? && given in a.authorized {
        RequestedNow(secret, before, last, given);
      }
      forall i: nat, j: nat, k: nat, m: nat, l: nat | RequestedAt(secret, trail, given, i, j, k, m, l)
        ensures given in AuditOf(secret, trail).requested
      {
        RequestedBack(secret, before, last, given, i, j, k, m, l);
      }
    }
  }
}
