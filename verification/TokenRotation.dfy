/**
 Issuing, rotating and logging out refresh tokens over the blacklist.  Signing and parsing
 are outside the model: a presented string is either unusable or one of our signed tokens.
 The wall clock that dates tokens and the steady clock that dates revocations are taken to
 advance together, so one tick count stands for both.
 */
module TokenRotation {
  import opened Options
  import opened TokenStore

  datatype Kind = Access | Refresh

  /** The claims: `jti`, `sub`, `kind`, `exp` (in ticks), and the name and role that only access tokens carry. */
  datatype Token = Token(jti: Jti, user: string, kind: Kind, exp: int, username: string, role: string)

  datatype Presented = Empty | Unverifiable | Signed(token: Token)

  /** The two tokens and the expiries reported for them. */
  datatype Pair = Pair(access: Token, refresh: Token, accessExpiresAt: int, refreshExpiresAt: int)

  /** The clock readings of issuing a pair: each signing reads one, and each reported expiry another. */
  datatype Signing = Signing(access: int, refresh: int, reportAccess: int, reportRefresh: int)

  predicate Ordered(at: Signing) {
    at.access <= at.refresh <= at.reportAccess <= at.reportRefresh
  }

  datatype Rotation = Rotated(pair: Pair) | InvalidToken | RevokedToken | Misuse

  /** A signed `exp` is a NumericDate: whole seconds. */
  function ExpiryClaim(now: int, ttlSeconds: int): int {
    (now + ttlSeconds * TICKS_PER_SECOND) / TICKS_PER_SECOND * TICKS_PER_SECOND
  }

  /** `verify` for refresh tokens: right kind and not expired. */
  function Verified(p: Presented, now: int): Option<Token> {
    if p.Signed? && p.token.kind == Refresh && now < p.token.exp then Some(p.token) else None
  }

  /**
   The clock readings of one call, in the order it makes them: verification, the blacklist question,
   the remaining validity, the revocation before and under its lock, and the signing of a new pair.
   */
  datatype Moments = Moments(verify: int, ask: int, left: int, started: int, locked: int, sign: Signing)

  predicate InOrder(at: Moments) {
    at.verify <= at.ask <= at.left <= at.started <= at.locked <= at.sign.access && Ordered(at.sign)
  }

  /** `duration_cast<seconds>` of the remaining validity, floored at zero. */
  function WholeSecondsLeft(exp: int, now: int): nat {
    if exp <= now then 0 else (exp - now) / TICKS_PER_SECOND
  }

  /** The moment a revocation for a token's remaining validity lapses. */
  function CoveredUntil(exp: int, at: Moments): int {
    at.started + WholeSecondsLeft(exp, at.left) * TICKS_PER_SECOND
  }

  /** The blacklist calls of one rotation that passes verification. */
  function RotationCalls(b: Blacklist, token: Token, at: Moments, victim: Option<Jti>): seq<Call> {
    [Ask(token.jti, at.ask)] +
    if Listed(b, token.jti, at.ask) || WholeSecondsLeft(token.exp, at.left) == 0 then []
    else [Revoke(token.jti, CoveredUntil(token.exp, at), at.locked, victim)]
  }

  predicate UsableTtls(accessTtl: int, refreshTtl: int) {
    1 <= accessTtl <= refreshTtl
  }

  function IssuedPair(user: string, username: string, role: string, accessJti: Jti, refreshJti: Jti, accessTtl: int,
                      refreshTtl: int, at: Signing): Pair {
    Pair(Token(accessJti, user, Access, ExpiryClaim(at.access, accessTtl), username, role),
         Token(refreshJti, user, Refresh, ExpiryClaim(at.refresh, refreshTtl), "", ""),
         at.reportAccess + accessTtl * TICKS_PER_SECOND,
         at.reportRefresh + refreshTtl * TICKS_PER_SECOND)
  }

  /**
   A claimed expiry is its lifetime rounded down to a whole second, and the reported one is later by no more than
   that and the delay.
   */
  predicate ReportsExpiry(exp: int, reported: int, ttl: int, signed: int, read: int) {
    && exp <= signed + ttl * TICKS_PER_SECOND < exp + TICKS_PER_SECOND
    && 0 <= reported - exp < TICKS_PER_SECOND + (read - signed)
  }

  /** Both tokens are the user's; each has its own id and kind, and only the access token the name and the role. */
  ghost predicate Identifies(pair: Pair, user: string, username: string, role: string, accessJti: Jti,
                             refreshJti: Jti) {
    && pair.access.jti == accessJti && pair.access.user == user && pair.access.kind == Access
    && pair.access.username == username && pair.access.role == role
    && pair.refresh.jti == refreshJti && pair.refresh.user == user && pair.refresh.kind == Refresh
    && pair.refresh.username == "" && pair.refresh.role == ""
  }

  method IssueTokenPair(user: string, username: string, role: string, accessJti: Jti, refreshJti: Jti, accessTtl: int,
                        refreshTtl: int, at: Signing)
    returns (r: Option<Pair>)
    ensures r == if UsableTtls(accessTtl, refreshTtl)
                 then Some(IssuedPair(user, username, role, accessJti, refreshJti, accessTtl, refreshTtl, at)) else None
    ensures r.Some? <==> accessTtl >= 1 && refreshTtl >= accessTtl
    ensures r.Some? ==>
              && Identifies(r.value, user, username, role, accessJti, refreshJti)
              && r.value.access.exp % TICKS_PER_SECOND == 0 && r.value.refresh.exp % TICKS_PER_SECOND == 0
              && r.value.accessExpiresAt == at.reportAccess + accessTtl * TICKS_PER_SECOND
              && r.value.refreshExpiresAt == at.reportRefresh + refreshTtl * TICKS_PER_SECOND
    ensures r.Some? ==> Verified(Signed(r.value.refresh), at.refresh) == Some(r.value.refresh)
                        && Verified(Signed(r.value.access), at.access) == None
    ensures r.Some? && Ordered(at) ==>
              && ReportsExpiry(r.value.access.exp, r.value.accessExpiresAt, accessTtl, at.access, at.reportAccess)
              && ReportsExpiry(r.value.refresh.exp, r.value.refreshExpiresAt, refreshTtl, at.refresh, at.reportRefresh)
              && r.value.access.exp <= r.value.refresh.exp
  {
    if accessTtl < 1 {
      return None;
    }
    if refreshTtl < accessTtl {
      return None;
    }
    r := Some(IssuedPair(user, username, role, accessJti, refreshJti, accessTtl, refreshTtl, at));
  }

  /** What a rotation answers, read off the blacklist alone once the arguments are in order. */
  predicate Answers(b: Blacklist, p: Presented, verify: int, ask: int, r: Rotation) {
    match Verified(p, verify)
    case None => r == InvalidToken
    case Some(token) =>
      if token.jti != "" && Listed(b, token.jti, ask) then r == RevokedToken
      else r.Rotated? && r.pair.refresh.user == token.user && r.pair.access.user == token.user
  }

  /**
   What a successful rotation does to the blacklist: the expired entry it found is erased, then the old token is
   listed.
   */
  ghost predicate RotationEffect(b: Blacklist, cap: nat, token: Token, at: Moments, victim: Option<Jti>,
                                 after: Blacklist) {
    var asked := b - {token.jti};
    if token.jti == "" then after == b && victim == None
    else if WholeSecondsLeft(token.exp, at.left) == 0 then after == asked && victim == None
    else
      && IsVictim(asked, cap, at.locked, victim)
      && after == Revoked(asked, token.jti, CoveredUntil(token.exp, at), at.locked, victim)
  }

  /** A signed refresh token that has not expired. */
  predicate LiveRefresh(p: Presented, now: int) {
    p.Signed? && p.token.kind.Refresh? && p.token.exp > now
  }

  /** The blacklist check, and the revocation of a token that passes it. */
  method Retire(store: InMemoryRefreshTokenStore, token: Token, at: Moments)
    returns (listed: bool, evicted: Option<Jti>)
    modifies store
    ensures listed <==> token.jti != "" && Listed(old(store.blacklist), token.jti, at.ask)
    ensures listed ==> store.blacklist == old(store.blacklist) && evicted == None
    ensures !listed ==> RotationEffect(old(store.blacklist), store.maxEntries, token, at, evicted, store.blacklist)
  {
    evicted := None;
    listed := store.IsRevoked(token.jti, at.ask);
    if listed {
      return;
    }
    var remaining := if token.exp - at.left < 0 then 0 else (token.exp - at.left) / TICKS_PER_SECOND;
    evicted := store.Revoke(token.jti, remaining, at.started, at.locked);
  }

  /** The token stands on the list for its remaining whole seconds, if it has an id and one is left. */
  ghost predicate ListedForRest(token: Token, at: Moments, after: Blacklist) {
    token.jti != "" && token.exp - at.left >= TICKS_PER_SECOND ==>
      && token.jti in after
      && after[token.jti] == at.started + (token.exp - at.left) / TICKS_PER_SECOND * TICKS_PER_SECOND
  }

  /** No entry but this one is new or changed. */
  ghost predicate OnlyEntry(b: Blacklist, after: Blacklist, jti: Jti) {
    forall k | k in after && k != jti :: k in b && after[k] == b[k]
  }

  lemma RetiredEntry(b: Blacklist, cap: nat, token: Token, at: Moments, victim: Option<Jti>, after: Blacklist)
    requires RotationEffect(b, cap, token, at, victim, after)
    ensures ListedForRest(token, at, after) && OnlyEntry(b, after, token.jti)
  {
  }

  method RotateTokenPair(store: InMemoryRefreshTokenStore, p: Presented, username: string, role: string,
                         accessJti: Jti, refreshJti: Jti, accessTtl: int, refreshTtl: int, at: Moments)
    returns (r: Rotation, evicted: Option<Jti>)
    modifies store
    ensures !UsableTtls(accessTtl, refreshTtl) ==> r == Misuse
    ensures UsableTtls(accessTtl, refreshTtl) && p.Empty? ==> r == InvalidToken
    ensures UsableTtls(accessTtl, refreshTtl) && !p.Empty? && (username == "" || role == "") ==> r == Misuse
    ensures UsableTtls(accessTtl, refreshTtl) && username != "" && role != "" ==> r != Misuse
    ensures r != Misuse ==> Answers(old(store.blacklist), p, at.verify, at.ask, r)
    ensures !r.Rotated? ==> store.blacklist == old(store.blacklist) && evicted == None
    ensures r.Rotated? ==>
              && Verified(p, at.verify).Some?
              && r.pair ==
                   IssuedPair(p.token.user, username, role, accessJti, refreshJti, accessTtl, refreshTtl, at.sign)
              && RotationEffect(old(store.blacklist), store.maxEntries, p.token, at, evicted, store.blacklist)
    ensures r == Misuse <==> accessTtl < 1 || refreshTtl < accessTtl || (!p.Empty? && (username == "" || role == ""))
    ensures r != Misuse ==> (r == InvalidToken <==> !LiveRefresh(p, at.verify))
    ensures r != Misuse && LiveRefresh(p, at.verify) ==>
              (r == RevokedToken <==>
               p.token.jti != "" && p.token.jti in old(store.blacklist) && old(store.blacklist)[p.token.jti] > at.ask)
    ensures r.Rotated? ==> Identifies(r.pair, p.token.user, username, role, accessJti, refreshJti)
    ensures r.Rotated? ==>
              && ListedForRest(p.token, at, store.blacklist)
              && OnlyEntry(old(store.blacklist), store.blacklist, p.token.jti)
  {
    evicted := None;
    if accessTtl < 1 || refreshTtl < accessTtl {
      return Misuse, None;
    }
    if p.Empty? {
      return InvalidToken, None;
    }
    if username == "" || role == "" {
      return Misuse, None;
    }
    var claims := Verified(p, at.verify);
    if claims.None? {
      return InvalidToken, None;
    }
    var token := claims.value;
    var listed;
    listed, evicted := Retire(store, token, at);
    if listed {
      return RevokedToken, None;
    }
    RetiredEntry(old(store.blacklist), store.maxEntries, token, at, evicted, store.blacklist);
    r := Rotated(IssuedPair(token.user, username, role, accessJti, refreshJti, accessTtl, refreshTtl, at.sign));
  }

  /** A successful rotation is a run of the blacklist. */
  lemma RotationHappens(s: Stores, token: Token, at: Moments, victim: Option<Jti>, after: Blacklist)
    returns (end: Stores)
    requires InOrder(at) && s.clock <= at.ask && token.jti != "" && !Listed(s.store, token.jti, at.ask)
    requires RotationEffect(s.store, s.cap, token, at, victim, after)
    ensures end.store == after && Happens(s, RotationCalls(s.store, token, at, victim), end)
  {
    var calls := RotationCalls(s.store, token, at, victim);
    var s1 := After(s, calls[0]);
    if |calls| == 1 {
      end := s1;
      assert Happens(s1, calls[1..], end);
    } else {
      end := After(s1, calls[1]);
      assert calls[1..][0] == calls[1];
      assert Happens(end, calls[1..][1..], end);
      assert Happens(s1, calls[1..], end);
    }
  }

  // ---- how long a token stays refused ------------------------------------------------------

  /** None of these calls evicts `jti`. */
  ghost predicate Spares(calls: seq<Call>, jti: Jti) {
    forall k | 0 <= k < |calls| && calls[k].Revoke? :: calls[k].victim != Some(jti)
  }

  /** None of these calls revokes `jti`. */
  ghost predicate LeavesAlone(calls: seq<Call>, jti: Jti) {
    forall k | 0 <= k < |calls| && calls[k].Revoke? :: calls[k].jti != jti
  }

  /** An entry not evicted is kept, with its first expiry, as long as it is live. */
  lemma {:induction false} EntryPersists(s: Stores, calls: seq<Call>, end: Stores, jti: Jti, expiry: int)
    requires Happens(s, calls, end) && Spares(calls, jti)
    requires jti in s.store && s.store[jti] == expiry
    ensures s.clock <= end.clock
    ensures end.clock < expiry ==> jti in end.store && end.store[jti] == expiry
    decreases |calls|
  {
    if calls != [] {
      var m := After(s, calls[0]);
      ClockGrows(m, calls[1..], end);
      if m.clock < expiry {
        assert calls[0].Revoke? ==> calls[0].victim != Some(jti);
        EntryPersists(m, calls[1..], end, jti, expiry);
      }
    }
  }

  lemma {:induction false} ClockGrows(s: Stores, calls: seq<Call>, end: Stores)
    requires Happens(s, calls, end)
    ensures s.clock <= end.clock
    decreases |calls|
  {
    if calls != [] {
      ClockGrows(After(s, calls[0]), calls[1..], end);
    }
  }

  /** Without another revocation of `jti`, nothing brings an entry back or extends it. */
  lemma {:induction false} EntryNotRevived(s: Stores, calls: seq<Call>, end: Stores, jti: Jti, expiry: int)
    requires Happens(s, calls, end) && LeavesAlone(calls, jti)
    requires jti in s.store ==> s.store[jti] == expiry
    ensures jti in end.store ==> end.store[jti] == expiry
    decreases |calls|
  {
    if calls != [] {
      assert calls[0].Revoke? ==> calls[0].jti != jti;
      EntryNotRevived(After(s, calls[0]), calls[1..], end, jti, expiry);
    }
  }

  /** The token is listed in `m` with this expiry, or it is not listed and that moment has come. */
  ghost predicate CoveredIn(m: Stores, jti: Jti, until: int, now: int) {
    if jti in m.store then m.store[jti] == until else until <= now
  }

  /** What the next presentation of a token is answered, once it is covered until some moment. */
  lemma CoverDecides(m: Stores, token: Token, until: int, calls: seq<Call>, end: Stores, now: int, verify: int,
                     ask: int)
    requires CoveredIn(m, token.jti, until, now) && token.kind == Refresh && token.jti != ""
    requires Happens(m, calls, end) && Spares(calls, token.jti) && LeavesAlone(calls, token.jti)
    requires now <= ask && end.clock <= ask
    ensures forall r | Answers(end.store, Signed(token), verify, ask, r) ::
              if verify >= token.exp then r == InvalidToken
              else if ask < until then r == RevokedToken
              else r.Rotated?
  {
    EntryNotRevived(m, calls, end, token.jti, until);
    if token.jti in m.store {
      EntryPersists(m, calls, end, token.jti, until);
    }
  }

  /**
   The covered span falls short of `exp` by less than one second; read at one instant, it also never
   exceeds it, and meets it only on a whole second.
   */
  lemma CoverFallsShort(exp: int, at: Moments)
    requires at.left < exp && InOrder(at)
    ensures exp - CoveredUntil(exp, at) < TICKS_PER_SECOND
    ensures CoveredUntil(exp, at) - exp <= at.started - at.left
    ensures at.started == at.left ==> (CoveredUntil(exp, at) == exp <==> (exp - at.left) % TICKS_PER_SECOND == 0)
  {
  }

  /** The state right after a token was rotated. */
  ghost predicate JustRotated(s: Stores, token: Token, at: Moments, victim: Option<Jti>, m: Stores) {
    && InOrder(at) && s.clock <= at.ask && at.verify < token.exp && token.kind == Refresh && token.jti != ""
    && !Listed(s.store, token.jti, at.ask)
    && Happens(s, RotationCalls(s.store, token, at, victim), m)
  }

  lemma RotationRecorded(s: Stores, token: Token, at: Moments, victim: Option<Jti>, m: Stores)
    requires JustRotated(s, token, at, victim, m)
    ensures m.clock <= at.locked && CoveredIn(m, token.jti, CoveredUntil(token.exp, at), at.started)
  {
    var calls := RotationCalls(s.store, token, at, victim);
    var s1 := After(s, calls[0]);
    assert Happens(s1, calls[1..], m);
    if |calls| == 2 {
      assert calls[1..][0] == calls[1];
      assert Happens(After(s1, calls[1]), calls[1..][1..], m);
    }
  }

  /** In any run without eviction of it, a rotated token is refused as revoked until its cover lapses. */
  lemma ReplayRefused(s: Stores, token: Token, at: Moments, victim: Option<Jti>, m: Stores, calls: seq<Call>,
                      end: Stores,
                      verify: int, ask: int)
    requires JustRotated(s, token, at, victim, m)
    requires Happens(m, calls, end) && Spares(calls, token.jti)
    requires verify < token.exp && at.started <= ask && end.clock <= ask < CoveredUntil(token.exp, at)
    ensures forall r :: Answers(end.store, Signed(token), verify, ask, r) <==> r == RevokedToken
  {
    RotationRecorded(s, token, at, victim, m);
    EntryPersists(m, calls, end, token.jti, CoveredUntil(token.exp, at));
  }

  /**
   The exact fate of the next presentation: refused as revoked before the cover lapses, rotated a
   second time between that and `exp`, refused as expired from `exp` on.
   */
  lemma ReplayFate(s: Stores, token: Token, at: Moments, victim: Option<Jti>, m: Stores, calls: seq<Call>, end: Stores,
                   verify: int, ask: int)
    requires JustRotated(s, token, at, victim, m)
    requires Happens(m, calls, end) && Spares(calls, token.jti) && LeavesAlone(calls, token.jti)
    requires at.started <= ask && end.clock <= ask
    ensures forall r | Answers(end.store, Signed(token), verify, ask, r) ::
              if verify >= token.exp then r == InvalidToken
              else if ask < CoveredUntil(token.exp, at) then r == RevokedToken
              else r.Rotated?
  {
    RotationRecorded(s, token, at, victim, m);
    CoverDecides(m, token, CoveredUntil(token.exp, at), calls, end, at.started, verify, ask);
  }

  function Instant(t: int): Moments {
    Moments(t, t, t, t, t, Signing(t, t, t, t))
  }

  /** Rotated one tick after its last whole second began, a token is rotated again one tick later. */
  lemma RotatedTwice(cap: nat, token: Token, pair: Pair) returns (m: Stores)
    requires token.exp == TICKS_PER_SECOND && token.kind == Refresh && token.jti != ""
    requires pair.refresh.user == token.user && pair.access.user == token.user
    ensures Answers(map[], Signed(token), 1, 1, Rotated(pair)) && JustRotated(Init(cap, 0), token, Instant(1), None, m)
    ensures Answers(m.store, Signed(token), 2, 2, Rotated(pair))
  {
    m := RotationHappens(Init(cap, 0), token, Instant(1), None, map[]);
  }

  // ---- logout --------------------------------------------------------------------------

  datatype Logout = Logout(revoked: bool, parsed: bool, userMatched: bool, jti: Jti)

  /** What a logout reports: it looks at the token and the user, never at the blacklist. */
  function LogoutAnswer(p: Presented, expectedUser: string, verify: int): Logout {
    match Verified(p, verify)
    case None => Logout(false, false, false, "")
    case Some(token) =>
      var matched := expectedUser == "" || token.user == expectedUser;
      Logout(matched, true, matched, token.jti)
  }

  function LogoutSeconds(exp: int, now: int, maxTtl: int): nat {
    var left := WholeSecondsLeft(exp, now);
    if maxTtl > 0 && left > maxTtl then maxTtl else left
  }

  /** What a logout of this token does to the blacklist. */
  ghost predicate LogoutEffect(b: Blacklist, cap: nat, token: Token, maxTtl: int, at: Moments, victim: Option<Jti>,
                               after: Blacklist) {
    var secs := LogoutSeconds(token.exp, at.left, maxTtl);
    if token.jti == "" || secs == 0 then after == b && victim == None
    else
      && IsVictim(b, cap, at.locked, victim)
      && after == Revoked(b, token.jti, at.started + secs * TICKS_PER_SECOND, at.locked, victim)
  }

  /** Best effort: an unusable or foreign token changes nothing. */
  method RevokeRefreshToken(store: InMemoryRefreshTokenStore, p: Presented, maxTtl: int, expectedUser: string,
                            at: Moments)
    returns (out: Logout, evicted: Option<Jti>)
    modifies store
    ensures out == LogoutAnswer(p, expectedUser, at.verify)
    ensures p.Signed? && expectedUser != "" && p.token.user != expectedUser ==>
              !out.revoked && !out.userMatched && store.blacklist == old(store.blacklist)
    ensures out.revoked <==> LiveRefresh(p, at.verify) && (expectedUser == "" || p.token.user == expectedUser)
    ensures (out.parsed <==> LiveRefresh(p, at.verify)) && (out.userMatched <==> out.revoked)
    ensures out.jti == if LiveRefresh(p, at.verify) then p.token.jti else ""
    ensures out.revoked && p.token.jti != "" && p.token.jti !in old(store.blacklist) && p.token.exp > at.left ==>
              var left := (p.token.exp - at.left) / TICKS_PER_SECOND;
              var secs := if 0 < maxTtl < left then maxTtl else left;
              if secs == 0 then store.blacklist == old(store.blacklist)
              else p.token.jti in store.blacklist &&
                   store.blacklist[p.token.jti] == at.started + secs * TICKS_PER_SECOND
    ensures forall k | k in store.blacklist && !(out.revoked && k == p.token.jti) ::
              k in old(store.blacklist) && store.blacklist[k] == old(store.blacklist)[k]
    ensures !out.revoked ==> store.blacklist == old(store.blacklist)
    ensures out.revoked ==>
              p.Signed? && LogoutEffect(old(store.blacklist), store.maxEntries, p.token, maxTtl, at, evicted,
                store.blacklist)
  {
    out, evicted := Logout(false, false, false, ""), None;
    if p.Empty? {
      return;
    }
    var claims := Verified(p, at.verify);
    if claims.None? {
      return;
    }
    var token := claims.value;
    out := out.(parsed := true, jti := token.jti);
    if expectedUser != "" && token.user != expectedUser {
      return;
    }
    out := out.(userMatched := true);
    var remaining := if token.exp - at.left < 0 then 0 else (token.exp - at.left) / TICKS_PER_SECOND;
    if maxTtl > 0 && remaining > maxTtl {
      remaining := maxTtl;
    }
    evicted := store.Revoke(token.jti, remaining, at.started, at.locked);
    out := out.(revoked := true);
  }

  function LogoutCalls(token: Token, maxTtl: int, at: Moments, victim: Option<Jti>): seq<Call> {
    var secs := LogoutSeconds(token.exp, at.left, maxTtl);
    if secs == 0 then [] else [Revoke(token.jti, at.started + secs * TICKS_PER_SECOND, at.locked, victim)]
  }

  /** The state right after a logout of this token. */
  ghost predicate JustLoggedOut(s: Stores, token: Token, maxTtl: int, at: Moments, victim: Option<Jti>, m: Stores) {
    && InOrder(at) && s.clock <= at.locked && at.verify < token.exp && token.kind == Refresh && token.jti != ""
    && Happens(s, LogoutCalls(token, maxTtl, at, victim), m)
  }

  /** A logout is a run of the blacklist. */
  lemma LogoutHappens(s: Stores, token: Token, maxTtl: int, at: Moments, victim: Option<Jti>, after: Blacklist)
    returns (end: Stores)
    requires s.clock <= at.locked && token.jti != ""
    requires LogoutEffect(s.store, s.cap, token, maxTtl, at, victim, after)
    ensures end.store == after && Happens(s, LogoutCalls(token, maxTtl, at, victim), end)
  {
    var calls := LogoutCalls(token, maxTtl, at, victim);
    if calls == [] {
      end := s;
    } else {
      end := After(s, calls[0]);
      assert Happens(end, calls[1..], end);
    }
  }

  /** Until when a logged-out token is refused: an entry it already had stands, unless this very logout evicted it. */
  function LogoutCover(b: Blacklist, token: Token, maxTtl: int, at: Moments, victim: Option<Jti>): int {
    var secs := LogoutSeconds(token.exp, at.left, maxTtl);
    if secs == 0 && token.jti in b then b[token.jti]
    else if Listed(b, token.jti, at.locked) && victim != Some(token.jti) then b[token.jti]
    else at.started + secs * TICKS_PER_SECOND
  }

  /** The exact fate of a logged-out token at every later presentation. */
  lemma LogoutFate(s: Stores, token: Token, maxTtl: int, at: Moments, victim: Option<Jti>, m: Stores,
                   calls: seq<Call>, end: Stores,
                   verify: int, ask: int)
    requires JustLoggedOut(s, token, maxTtl, at, victim, m)
    requires Happens(m, calls, end) && Spares(calls, token.jti) && LeavesAlone(calls, token.jti)
    requires at.started <= ask && end.clock <= ask
    ensures forall r | Answers(end.store, Signed(token), verify, ask, r) ::
              if verify >= token.exp then r == InvalidToken
              else if ask < LogoutCover(s.store, token, maxTtl, at, victim) then r == RevokedToken
              else r.Rotated?
  {
    var until := LogoutCover(s.store, token, maxTtl, at, victim);
    var own := LogoutCalls(token, maxTtl, at, victim);
    if own != [] {
      assert Happens(After(s, own[0]), own[1..], m);
    }
    assert CoveredIn(m, token.jti, until, at.started);
    CoverDecides(m, token, until, calls, end, at.started, verify, ask);
  }

  /**
   A logout covers a token it newly lists to within a second of `exp` exactly when the ceiling does not cut it off.
   */
  lemma LogoutCoversIff(b: Blacklist, token: Token, maxTtl: int, at: Moments, victim: Option<Jti>)
    requires at.left < token.exp && at.started == at.left && token.jti !in b
    ensures token.exp - LogoutCover(b, token, maxTtl, at, victim) < TICKS_PER_SECOND <==>
            maxTtl <= 0 || WholeSecondsLeft(token.exp, at.left) <= maxTtl
  {
    var left := WholeSecondsLeft(token.exp, at.left);
    if maxTtl > 0 && left > maxTtl {
      assert (left - maxTtl) * TICKS_PER_SECOND >= TICKS_PER_SECOND;
    }
  }

  /** With less than a second left, a logout reports `revoked` and lists nothing: the token can still be rotated. */
  lemma LogoutListsNothing(cap: nat, token: Token, pair: Pair)
    requires token.exp == TICKS_PER_SECOND && token.kind == Refresh && token.jti != ""
    requires pair.refresh.user == token.user && pair.access.user == token.user
    ensures LogoutAnswer(Signed(token), token.user, 1).revoked
    ensures forall victim, after :: LogoutEffect(map[], cap, token, 0, Instant(1), victim, after) <==>
              victim == None && after == map[]
    ensures Answers(map[], Signed(token), 2, 2, Rotated(pair))
  {
  }

  /** A ceiling of one second on a token with three left: refused at once, and rotated two seconds before its `exp`. */
  lemma CappedLogoutLapses(cap: nat, token: Token, pair: Pair) returns (m: Stores)
    requires token.exp == 3 * TICKS_PER_SECOND && token.kind == Refresh && token.jti != ""
    requires pair.refresh.user == token.user && pair.access.user == token.user
    ensures LogoutAnswer(Signed(token), token.user, 0).revoked
    ensures JustLoggedOut(Init(cap, 0), token, 1, Instant(0), None, m)
    ensures Answers(m.store, Signed(token), 0, 0, RevokedToken)
    ensures Answers(m.store, Signed(token), TICKS_PER_SECOND, TICKS_PER_SECOND, Rotated(pair))
  {
    assert Live(map[], 0) == map[];
    m := LogoutHappens(Init(cap, 0), token, 1, Instant(0), None, map[token.jti := TICKS_PER_SECOND]);
  }

  // ---- two rotations of one token -----------------------------------------------------------

  /** The stores before call `k`. */
  function Before(s: Stores, calls: seq<Call>, k: nat): Stores
    requires k <= |calls|
  {
    if k == 0 then s else After(Before(s, calls, k - 1), calls[k - 1])
  }

  /** A whole run passes through the stores before each of its calls. */
  lemma {:induction false} PassesThrough(s: Stores, calls: seq<Call>, end: Stores, k: nat)
    requires Happens(s, calls, end) && k <= |calls|
    ensures Happens(s, calls[..k], Before(s, calls, k))
    ensures k < |calls| ==> Possible(Before(s, calls, k), calls[k])
    decreases k
  {
    if k == 0 {
      assert calls[..0] == [];
    } else {
      var rest := calls[1..];
      PassesThrough(After(s, calls[0]), rest, end, k - 1);
      BeforeTail(s, calls, k);
      assert calls[..k][1..] == rest[..k - 1];
    }
  }

  lemma {:induction false} BeforeTail(s: Stores, calls: seq<Call>, k: nat)
    requires 0 < k <= |calls|
    ensures Before(s, calls, k) == Before(After(s, calls[0]), calls[1..], k - 1)
  {
    if k > 1 {
      BeforeTail(s, calls, k - 1);
    } else {
      assert Before(s, calls, 0) == s;
    }
  }

  /**
   The only revocation of `jti` among these calls, if there is one, is call `k`, and it covers the token until then.
   */
  ghost predicate OnlyRevoke(calls: seq<Call>, jti: Jti, k: nat, until: int) {
    && (k < |calls| ==> calls[k].Revoke? && calls[k].jti == jti && calls[k].expiry == until)
    && LeavesAlone(calls[..if k < |calls| then k else |calls|], jti)
    && (k < |calls| ==> LeavesAlone(calls[k + 1..], jti))
  }

  /** A token without a live entry has none later unless it is revoked. */
  lemma {:induction false} StaysUnlisted(s: Stores, calls: seq<Call>, end: Stores, jti: Jti)
    requires Happens(s, calls, end) && LeavesAlone(calls, jti) && !Listed(s.store, jti, s.clock)
    ensures s.clock <= end.clock && !Listed(end.store, jti, end.clock)
    decreases |calls|
  {
    if calls != [] {
      assert calls[0].Revoke? ==> calls[0].jti != jti;
      StaysUnlisted(After(s, calls[0]), calls[1..], end, jti);
    }
  }

  lemma {:induction false} HappensSplit(s: Stores, calls: seq<Call>, end: Stores, k: nat, m: Stores, rest: seq<Call>)
    requires Happens(s, calls, end) && k <= |calls| && m == Before(s, calls, k) && rest == calls[k..]
    ensures Happens(m, rest, end)
    decreases k
  {
    if k == 0 {
      assert calls[0..] == calls;
    } else {
      BeforeTail(s, calls, k);
      assert calls[1..][k - 1..] == calls[k..];
      HappensSplit(After(s, calls[0]), calls[1..], end, k - 1, m, rest);
    }
  }

  /** Whether a token is listed after calls with at most one revocation of it, as long as its cover lasts. */
  lemma ListedIffRevoked(s: Stores, calls: seq<Call>, end: Stores, jti: Jti, k: nat, until: int, now: int)
    requires Happens(s, calls, end) && !Listed(s.store, jti, s.clock)
    requires Spares(calls, jti) && OnlyRevoke(calls, jti, k, until) && end.clock <= now < until
    ensures Listed(end.store, jti, now) <==> k < |calls|
  {
    if k < |calls| {
      var m := Before(s, calls, k);
      PassesThrough(s, calls, end, k);
      StaysUnlisted(s, calls[..k], m, jti);
      HappensSplit(s, calls, end, k, m, calls[k..]);
      assert calls[k..][0] == calls[k] && calls[k..][1..] == calls[k + 1..];
      EntryPersists(After(m, calls[k]), calls[k + 1..], end, jti, until);
    } else {
      assert calls[..|calls|] == calls;
      StaysUnlisted(s, calls, end, jti);
    }
  }

  /**
   Two rotations of one token, their calls interleaved with each other's and any others: the first asks
   with call `a`, the second with call `b`, and the first revokes with call `k`.  The first is let through,
   and so is the second exactly when it asks before that: both succeed iff both ask before either revokes.
   */
  lemma BothRotateIff(s: Stores, calls: seq<Call>, end: Stores, jti: Jti, a: nat, b: nat, k: nat, until: int)
    requires Happens(s, calls, end) && !Listed(s.store, jti, s.clock) && Spares(calls, jti)
    requires a < b < |calls| && calls[a].Ask? && calls[b].Ask? && calls[a].jti == jti == calls[b].jti
    requires a < k && OnlyRevoke(calls[..b], jti, k, until) && calls[b].now < until
    ensures !Listed(Before(s, calls, a).store, jti, calls[a].now)
    ensures !Listed(Before(s, calls, b).store, jti, calls[b].now) <==> b <= k
  {
    PassesThrough(s, calls, end, a);
    PassesThrough(s, calls, end, b);
    forall i | 0 <= i < a && calls[i].Revoke?
      ensures calls[i].jti != jti
    {
      assert calls[..b][..if k < b then k else b][i] == calls[i];
    }
    StaysUnlisted(s, calls[..a], Before(s, calls, a), jti);
    ListedIffRevoked(s, calls[..b], Before(s, calls, b), jti, k, until, calls[b].now);
  }

  /** The calls of two rotations of one token that ask one after the other and then revoke one after the other. */
  function Race(jti: Jti, until: int): seq<Call> {
    [Ask(jti, 0), Ask(jti, 0), Revoke(jti, until, 0, None), Revoke(jti, until, 0, None)]
  }

  /** A run in which both rotations of a token are let through. */
  lemma BothRotate(jti: Jti, until: int) returns (end: Stores)
    requires until > 0
    ensures Happens(Init(0, 0), Race(jti, until), end)
    ensures !Listed(Before(Init(0, 0), Race(jti, until), 0).store, jti, 0)
    ensures !Listed(Before(Init(0, 0), Race(jti, until), 1).store, jti, 0)
  {
    var calls := Race(jti, until);
    end := RaceHappens(jti, until);
    assert calls[..1] == [Ask(jti, 0)];
    BothRotateIff(Init(0, 0), calls, end, jti, 0, 1, 2, until);
  }

  lemma RaceHappens(jti: Jti, until: int) returns (end: Stores)
    requires until > 0
    ensures Happens(Init(0, 0), Race(jti, until), end)
  {
    var calls := Race(jti, until);
    var s1 := After(Init(0, 0), calls[0]);
    var s2 := After(s1, calls[1]);
    var s3 := After(s2, calls[2]);
    end := After(s3, calls[3]);
    var c1, c2, c3 := calls[1..], calls[2..], calls[3..];
    assert c1[1..] == c2 && c2[1..] == c3 && c3[1..] == [];
    assert Happens(end, [], end) && Happens(s3, c3, end);
    assert Happens(s2, c2, end);
    assert Happens(s1, c1, end);
  }
}
