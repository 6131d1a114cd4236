/** The pure decisions of internal/service/gift.go: validation, gifting policy, eligibility,
    pricing, and the two ways a rejection becomes an API error. */
module GiftPolicy {
  import opened Schema

  datatype GiftRequest = GiftRequest(
    request: string, viewer: nat, creator: nat, session: nat, matchId: Option<nat>, giftId: string, quantity: nat) {
    function Key(): ReqKey { ReqKey(viewer, request) }
  }

  datatype AppError = AppError(http: int, code: ErrorCode)

  datatype GiftResponse = GiftResponse(
    orderId: nat, charged: int, matchPoints: int, diamonds: int, newBalance: int, created: bool)

  /** How a call ends: a response, an API error, or an infrastructure error. */
  datatype Outcome = Reply(response: GiftResponse) | Refused(error: AppError) | Infra

  const VALIDATION := AppError(400, ValidationError)
  const MISMATCH := AppError(409, IdempotencyPayloadMismatch)

  /** unicode.IsSpace */
  predicate IsSpace(c: char) {
    '\t' <= c <= '\r' || c == ' ' || c == '\U{85}' || c == '\U{A0}' || c == '\U{1680}'
    || '\U{2000}' <= c <= '\U{200A}' || '\U{2028}' <= c <= '\U{2029}'
    || c == '\U{202F}' || c == '\U{205F}' || c == '\U{3000}'
  }

  /** `strings.TrimSpace(s) == ""` */
  predicate Blank(s: string) {
    forall i :: 0 <= i < |s| ==> IsSpace(s[i])
  }

  predicate ValidGift(req: GiftRequest) {
    && !Blank(req.request) && req.viewer != 0 && req.creator != 0 && req.session != 0 && !Blank(req.giftId)
    && 1 <= req.quantity <= 99
    && req.viewer != req.creator
  }

  function Lower(c: char): char {
    if 'A' <= c <= 'Z' then c - 'A' + 'a' else c
  }

  /** `strings.EqualFold` on ASCII identifiers. */
  predicate EqualFold(a: string, b: string) {
    |a| == |b| && forall i :: 0 <= i < |a| ==> Lower(a[i]) == Lower(b[i])
  }

  predicate CreatorEligible(users: map<nat, UserRow>, creator: nat) {
    creator in users &&
    var u := users[creator];
    && u.standing.Good? && u.canGoLive && u.giftsEnabled
    && u.accountType.Normal?
    && (if EqualFold(u.region, "KR") then u.ageYears >= 19 else u.ageYears >= 18)
  }

  /** What is known once a gift has passed every check that needs no wallet. */
  datatype Verdict =
    | Reject(error: AppError)
    | Clear(campaign: Option<nat>, gift: GiftRow, contest: Option<MatchRow>)

  function Policy(ref: Reference, sessions: map<nat, SessionRow>, req: GiftRequest): Verdict {
    if req.session !in sessions then Reject(AppError(404, LiveSessionNotFound))
    else if !sessions[req.session].open then Reject(AppError(409, LiveSessionClosed))
    else if req.giftId !in ref.catalog || !ref.catalog[req.giftId].enabled then
      Reject(AppError(404, GiftNotFound))
    else if !CreatorEligible(ref.users, req.creator) then Reject(AppError(403, CreatorNotEligible))
    else if req.matchId.Some?
         && (req.matchId.value !in ref.matches
             || ref.matches[req.matchId.value].session != req.session
             || !ref.matches[req.matchId.value].open) then
      Reject(AppError(409, MatchClosed))
    else
      Clear(sessions[req.session].campaign, ref.catalog[req.giftId],
            if req.matchId.Some? then Some(ref.matches[req.matchId.value]) else None)
  }

  /** The server-derived amounts of an accepted gift. */
  datatype Quote = Quote(charged: int, matchPoints: int, diamonds: int)

  /** The price of a gift against a locked balance. `Fault` is an infrastructure error. */
  datatype Terms = Fault | Short | Priced(quote: Quote)

  function Price(gift: GiftRow, contest: Option<MatchRow>, req: GiftRequest, balance: int): (t: Terms)
    ensures t.Priced? ==> 0 < t.quote.charged <= balance && t.quote.charged <= MAX_UINT32
    ensures t.Priced? ==> 0 <= t.quote.matchPoints <= MAX_UINT32 && 0 <= t.quote.diamonds <= MAX_UINT32
  {
    var charged := gift.coinPrice * req.quantity;
    if charged <= 0 || charged > MAX_UINT32 then Fault
    else if balance < charged then Short
    else
      var points :=
        if contest.Some? && contest.value.specificGiftMode
           && (contest.value.specificGift.None? || !EqualFold(contest.value.specificGift.value, req.giftId))
        then 0
        else gift.matchPoints * req.quantity;
      var diamonds := gift.diamondReward * req.quantity;
      if 0 <= points <= MAX_UINT32 && 0 <= diamonds <= MAX_UINT32
      then Priced(Quote(charged, points, diamonds))
      else Fault
  }

  /** mapRejectCodeToAppError: how a stored rejection is reported when it is replayed. */
  function StoredRejection(code: ErrorCode): AppError {
    match code
    case CreatorNotEligible => AppError(403, code)
    case LiveSessionNotFound => AppError(404, code)
    case GiftNotFound => AppError(404, code)
    case _ => AppError(409, code)
  }

  /** replayGiftIfExists on a row it found. */
  function Replay(o: OrderRow, hash: Hash): Outcome {
    if o.hash != hash then Refused(MISMATCH)
    else if o.status.Accepted? then
      Reply(GiftResponse(o.id, o.charged, o.matchPoints, o.diamonds,
                         if o.postBalance.Some? then o.postBalance.value else 0, false))
    else Refused(StoredRejection(o.status.code))
  }

  /** Outcomes are compared without the created/replayed marker. */
  function Unmarked(o: Outcome): Outcome {
    if o.Reply? then Reply(o.response.(created := false)) else o
  }

  /** A rejection is reported with the same code and HTTP status when it is first decided and
      when it is replayed from its stored code. */
  lemma RejectionsAreStable(ref: Reference, sessions: map<nat, SessionRow>, req: GiftRequest)
    ensures Policy(ref, sessions, req).Reject? ==>
              var e := Policy(ref, sessions, req).error; StoredRejection(e.code) == e
    ensures StoredRejection(InsufficientBalance) == AppError(409, InsufficientBalance)
  {
  }
}
