/**
 Two short-lived memories of the Transak integration: the client-IP attestations already used, and
 the access tokens webhooks may be signed with.
 */
module Transak {
  import opened FiniteSets
  import opened Options

  // ----- attestations -----

  type Nonce = string

  const MAX_WINDOW_SECONDS := 90
  const MAX_CLOCK_SKEW_SECONDS := 30
  const MAX_NONCES := 10_000
  const MAX_TIMESTAMP := 253_402_300_799

  /** A claim as submitted.  `authentic` stands for the format, signature and address checks. */
  datatype Claim = Claim(issuedAt: int, expiresAt: int, nonce: Nonce, authentic: bool)

  type Nonces = map<Nonce, int>   // each used nonce and its claim's expiry

  predicate Timely(claim: Claim, now: real) {
    && claim.issuedAt > 0 && 0 < claim.expiresAt <= MAX_TIMESTAMP
    && claim.issuedAt as real <= now + MAX_CLOCK_SKEW_SECONDS as real
    && claim.expiresAt as real > now
    && claim.issuedAt < claim.expiresAt <= claim.issuedAt + MAX_WINDOW_SECONDS
  }

  function Unexpired(nonces: Nonces, now: real): Nonces {
    map n | n in nonces && nonces[n] as real > now :: nonces[n]
  }

  predicate Admits(nonces: Nonces, claim: Claim, now: real) {
    && Timely(claim, now) && claim.authentic && claim.nonce !in Unexpired(nonces, now)
    && |Unexpired(nonces, now)| < MAX_NONCES
  }

  /** The memory after a claim: only a claim that passes every other check prunes it. */
  function Presented(nonces: Nonces, claim: Claim, now: real): Nonces {
    if !(Timely(claim, now) && claim.authentic) then nonces
    else if Admits(nonces, claim, now) then Unexpired(nonces, now)[claim.nonce := claim.expiresAt]
    else Unexpired(nonces, now)
  }

  class AttestationMemory {
    var nonces: Nonces

    constructor ()
      ensures nonces == map[]
    {
      nonces := map[];
    }

    /** Drops the expired nonces, then records this one unless it is there or the memory is full. */
    method ReserveNonce(nonce: Nonce, expiresAt: int, now: real) returns (reserved: bool)
      modifies this
      ensures reserved <==> nonce !in Unexpired(old(nonces), now) && |Unexpired(old(nonces), now)| < MAX_NONCES
      ensures nonces == if reserved then Unexpired(old(nonces), now)[nonce := expiresAt]
                        else Unexpired(old(nonces), now)
    {
      var expired := set n | n in nonces && nonces[n] as real <= now;
      while expired != {}
        invariant forall n :: n in nonces <==> n in old(nonces) && (n in expired || old(nonces)[n] as real > now)
        invariant forall n :: n in nonces ==> nonces[n] == old(nonces)[n]
        invariant forall n :: n in expired ==> n in old(nonces) && old(nonces)[n] as real <= now
        decreases |expired|
      {
        var n :| n in expired;
        nonces := nonces - {n};
        expired := expired - {n};
      }
      assert nonces == Unexpired(old(nonces), now);
      if nonce in nonces {
        return false;
      }
      if |nonces| >= MAX_NONCES {
        return false;
      }
      nonces := nonces[nonce := expiresAt];
      return true;
    }

    method VerifyIpAttestation(claim: Claim, now: real) returns (accepted: bool)
      modifies this
      ensures accepted <==> Admits(old(nonces), claim, now)
      ensures accepted <==>
                && 0 < claim.issuedAt < claim.expiresAt <= MAX_TIMESTAMP && claim.authentic
                && claim.issuedAt as real <= now + 30.0 && now < claim.expiresAt as real
                && claim.expiresAt <= claim.issuedAt + 90
                && (claim.nonce in old(nonces) ==> old(nonces)[claim.nonce] as real <= now)
                && |set n | n in old(nonces) && old(nonces)[n] as real > now| < 10_000
      ensures nonces == Presented(old(nonces), claim, now)
    {
      if claim.issuedAt <= 0 || claim.expiresAt <= 0 || claim.expiresAt > MAX_TIMESTAMP {
        return false;
      }
      if claim.issuedAt as real > now + MAX_CLOCK_SKEW_SECONDS as real {
        return false;
      }
      if claim.expiresAt as real <= now {
        return false;
      }
      if claim.expiresAt <= claim.issuedAt {
        return false;
      }
      if claim.expiresAt - claim.issuedAt > MAX_WINDOW_SECONDS {
        return false;
      }
      if !claim.authentic {
        return false;
      }
      assert (set n | n in nonces && nonces[n] as real > now) == Unexpired(nonces, now).Keys;
      accepted := ReserveNonce(claim.nonce, claim.expiresAt, now);
    }
  }

  /** One presentation of a claim. */
  datatype Attempt = Attempt(claim: Claim, time: real)

  ghost predicate Ascending(attempts: seq<Attempt>) {
    forall i, j :: 0 <= i < j < |attempts| ==> attempts[i].time <= attempts[j].time
  }

  function MemoryAfter(attempts: seq<Attempt>): Nonces {
    if attempts == [] then map[]
    else
      var last := attempts[|attempts| - 1];
      Presented(MemoryAfter(attempts[..|attempts| - 1]), last.claim, last.time)
  }

  predicate Accepted(attempts: seq<Attempt>, i: nat)
    requires i < |attempts|
  {
    Admits(MemoryAfter(attempts[..i]), attempts[i].claim, attempts[i].time)
  }

  /** An accepted claim is remembered until it expires. */
  lemma {:induction false} AcceptedIsRemembered(attempts: seq<Attempt>, i: nat, n: nat)
    requires Ascending(attempts) && i < n <= |attempts| && Accepted(attempts, i)
    ensures var claim := attempts[i].claim;
            || claim.expiresAt as real <= attempts[n - 1].time
            || (claim.nonce in MemoryAfter(attempts[..n]) && MemoryAfter(attempts[..n])[claim.nonce] == claim.expiresAt)
  {
    assert attempts[..n][..n - 1] == attempts[..n - 1];
    if n > i + 1 {
      AcceptedIsRemembered(attempts, i, n - 1);
      assert attempts[n - 2].time <= attempts[n - 1].time;
    }
  }

  /** A nonce is accepted again only once the claim that used it has expired. */
  lemma NonceReturnsOnlyAfterExpiry(attempts: seq<Attempt>, i: nat, j: nat)
    requires Ascending(attempts) && i < j < |attempts|
    requires Accepted(attempts, i) && Accepted(attempts, j) && attempts[i].claim.nonce == attempts[j].claim.nonce
    ensures attempts[i].claim.expiresAt as real <= attempts[j].time
  {
    AcceptedIsRemembered(attempts, i, j);
    assert attempts[j - 1].time <= attempts[j].time;
  }

  /** So the same claim, by nonce and expiry, is accepted at most once. */
  lemma ClaimIsAcceptedOnce(attempts: seq<Attempt>, i: nat, j: nat)
    requires Ascending(attempts) && i < j < |attempts| && Accepted(attempts, i)
    requires attempts[i].claim.nonce == attempts[j].claim.nonce
    requires attempts[i].claim.expiresAt == attempts[j].claim.expiresAt
    ensures !Accepted(attempts, j)
  {
    AcceptedIsRemembered(attempts, i, j);
    assert attempts[j - 1].time <= attempts[j].time;
  }

  lemma UnexpiredIsSmaller(nonces: Nonces, now: real)
    ensures |Unexpired(nonces, now)| <= |nonces|
  {
    SmallerSubset(Unexpired(nonces, now).Keys, nonces.Keys);
  }

  lemma PresentedIsBounded(nonces: Nonces, claim: Claim, now: real)
    requires |nonces| <= MAX_NONCES
    ensures |Presented(nonces, claim, now)| <= MAX_NONCES
  {
    UnexpiredIsSmaller(nonces, now);
  }

  /** A remembered nonce is that of an accepted claim, within 120 seconds of its acceptance. */
  ghost predicate Explains(attempts: seq<Attempt>, nonce: Nonce, expiresAt: int) {
    exists i: nat :: i < |attempts| && AcceptedAs(attempts, i, nonce, expiresAt)
  }

  predicate AcceptedAs(attempts: seq<Attempt>, i: nat, nonce: Nonce, expiresAt: int)
    requires i < |attempts|
  {
    && Accepted(attempts, i) && attempts[i].claim.nonce == nonce && attempts[i].claim.expiresAt == expiresAt
    && expiresAt as real <= attempts[i].time + 120.0
  }

  lemma ExplainsMore(attempts: seq<Attempt>, n: nat, nonce: Nonce, expiresAt: int)
    requires n <= |attempts| && Explains(attempts[..n], nonce, expiresAt)
    ensures Explains(attempts, nonce, expiresAt)
  {
    var i: nat :| i < n && AcceptedAs(attempts[..n], i, nonce, expiresAt);
    assert attempts[..n][..i] == attempts[..i];
    assert AcceptedAs(attempts, i, nonce, expiresAt);
  }

  /** The memory stays bounded, and holds only accepted claims, each within 120 seconds of its
      acceptance. */
  lemma {:induction false} MemoryIsBounded(attempts: seq<Attempt>)
    ensures |MemoryAfter(attempts)| <= MAX_NONCES
    ensures forall n :: n in MemoryAfter(attempts) ==> Explains(attempts, n, MemoryAfter(attempts)[n])
  {
    if attempts != [] {
      var k := |attempts| - 1;
      var before, last := attempts[..k], attempts[k];
      MemoryIsBounded(before);
      PresentedIsBounded(MemoryAfter(before), last.claim, last.time);
      forall n | n in MemoryAfter(attempts) ensures Explains(attempts, n, MemoryAfter(attempts)[n]) {
        if n == last.claim.nonce && Accepted(attempts, k) {
          assert AcceptedAs(attempts, k, n, last.claim.expiresAt);
        } else {
          ExplainsMore(attempts, k, n, MemoryAfter(before)[n]);
        }
      }
    }
  }

  // ----- access tokens -----

  datatype Token = Token(text: string, expiresAt: int)

  const OVERLAP_SECONDS := 900

  /** The cached token, the one it replaced, and until when that one still verifies webhooks. */
  datatype Tokens = Tokens(current: Option<Token>, previous: Option<Token>, previousUntil: real)

  function MinReal(a: real, b: real): real {
    if a <= b then a else b
  }

  predicate Fresh(t: Option<Token>, now: real) {
    t.Some? && now < t.value.expiresAt as real
  }

  predicate Usable(response: Option<Token>, now: real) {
    response.Some? && response.value.text != "" && response.value.expiresAt > now.Floor
  }

  /** A refresh.  `response` is None when the call failed or its answer was malformed. */
  function Refreshed(t: Tokens, response: Option<Token>, now: real): Tokens {
    if !Usable(response, now) then t
    else if t.current.Some? && t.current.value.text != response.value.text then
      Tokens(response, t.current,
             MinReal((t.current.value.expiresAt + OVERLAP_SECONDS) as real, now + OVERLAP_SECONDS as real))
    else t.(current := response)
  }

  predicate CurrentVerifies(t: Tokens, now: real) {
    t.current.Some? && now <= (t.current.value.expiresAt + OVERLAP_SECONDS) as real
  }

  /** The webhook tokens at a time, and the cache after the lapsed one is dropped. */
  function WebhookTokens(t: Tokens, now: real): (seq<string>, Tokens) {
    var first := if CurrentVerifies(t, now) then [t.current.value.text] else [];
    if t.previous.Some? && now <= t.previousUntil && t.previous.value.text !in first then
      (first + [t.previous.value.text], t)
    else (first, if now > t.previousUntil then t.(previous := None, previousUntil := 0.0) else t)
  }

  datatype Use = Get(response: Option<Token>) | Rejected(used: Token, response: Option<Token>) | Webhook

  /** One use of the cache at a time. */
  function Used(t: Tokens, use: Use, now: real): Tokens {
    match use
    case Get(response) => if Fresh(t.current, now) then t else Refreshed(t, response, now)
    case Rejected(used, response) =>
      if Fresh(t.current, now) && t.current.value.text != used.text then t else Refreshed(t, response, now)
    case Webhook => WebhookTokens(t, now).1
  }

  class TokenCache {
    var currentToken: Option<Token>
    var previousToken: Option<Token>
    var previousTokenValidUntil: real

    constructor ()
      ensures State() == Tokens(None, None, 0.0)
    {
      currentToken, previousToken, previousTokenValidUntil := None, None, 0.0;
    }

    ghost function State(): Tokens
      reads this
    {
      Tokens(currentToken, previousToken, previousTokenValidUntil)
    }

    /** A cached token while it is fresh, else a refreshed one. */
    method AccessToken(now: real, response: Option<Token>) returns (token: Option<Token>)
      modifies this
      ensures State() == Used(old(State()), Get(response), now)
      ensures old(currentToken).Some? && now < old(currentToken).value.expiresAt as real ==> token == old(currentToken)
      ensures token.Some? ==> token == currentToken && token.value.expiresAt > now.Floor
      ensures token.None? <==> !Fresh(old(currentToken), now) && !Usable(response, now)
    {
      if currentToken.Some? && now < currentToken.value.expiresAt as real {
        return currentToken;
      }
      token := RefreshTokenLocked(now, response);
    }

    /** After a rejection: another caller's replacement if there is one, else a refresh. */
    method RefreshAfterUnauthorized(used: Token, now: real, response: Option<Token>) returns (token: Option<Token>)
      modifies this
      ensures State() == Used(old(State()), Rejected(used, response), now)
      ensures token.Some? ==> token == currentToken && token.value.expiresAt > now.Floor
      ensures token.Some? && token.value.text == used.text ==> token == response
      ensures token.None? ==> !Usable(response, now)
    {
      if currentToken.Some? && currentToken.value.text != used.text && now < currentToken.value.expiresAt as real {
        return currentToken;
      }
      token := RefreshTokenLocked(now, response);
    }

    method RefreshTokenLocked(now: real, response: Option<Token>) returns (token: Option<Token>)
      modifies this
      ensures State() == Refreshed(old(State()), response, now)
      ensures token == if response.Some? && response.value.text != "" && response.value.expiresAt > now.Floor
                       then response else None
    {
      if response.None? || response.value.text == "" || response.value.expiresAt <= now.Floor {
        return None;
      }
      var replacement := response.value;
      var previous := currentToken;
      currentToken := Some(replacement);
      if previous.Some? && previous.value.text != replacement.text {
        previousToken := previous;
        previousTokenValidUntil :=
          MinReal((previous.value.expiresAt + OVERLAP_SECONDS) as real, now + OVERLAP_SECONDS as real);
      }
      return Some(replacement);
    }

    /** The tokens a webhook may be signed with; none is an error to the caller. */
    method CachedWebhookVerificationTokens(now: real) returns (tokens: seq<string>)
      modifies this
      ensures tokens == WebhookTokens(old(State()), now).0 && State() == Used(old(State()), Webhook, now)
    {
      tokens := [];
      if currentToken.Some? && now <= (currentToken.value.expiresAt + OVERLAP_SECONDS) as real {
        tokens := tokens + [currentToken.value.text];
      }
      assert tokens == if CurrentVerifies(State(), now) then [currentToken.value.text] else [];
      if previousToken.Some? && now <= previousTokenValidUntil && previousToken.value.text !in tokens {
        tokens := tokens + [previousToken.value.text];
      } else if now > previousTokenValidUntil {
        previousToken := None;
        previousTokenValidUntil := 0.0;
      }
    }
  }

  function AfterUses(t: Tokens, uses: seq<(Use, real)>): Tokens {
    if uses == [] then t
    else Used(AfterUses(t, uses[..|uses| - 1]), uses[|uses| - 1].0, uses[|uses| - 1].1)
  }

  function TokensAfter(uses: seq<(Use, real)>): Tokens {
    AfterUses(Tokens(None, None, 0.0), uses)
  }

  /** The provider issued this token in answer to some use. */
  ghost predicate Issued(uses: seq<(Use, real)>, token: Token) {
    exists u :: u in uses && !u.0.Webhook? && u.0.response == Some(token)
  }

  ghost predicate Sound(t: Tokens, uses: seq<(Use, real)>) {
    && (t.current.Some? ==> Issued(uses, t.current.value))
    && (t.previous.Some? ==>
          && Issued(uses, t.previous.value) && t.current.Some? && t.previous.value.text != t.current.value.text
          && t.previousUntil <= (t.previous.value.expiresAt + OVERLAP_SECONDS) as real)
  }

  lemma UsedIsSound(t: Tokens, uses: seq<(Use, real)>, use: Use, now: real)
    requires Sound(t, uses)
    ensures Sound(Used(t, use, now), uses + [(use, now)])
  {
    var all := uses + [(use, now)];
    assert (use, now) in all;
    forall token | Issued(uses, token) ensures Issued(all, token) {
      var u :| u in uses && !u.0.Webhook? && u.0.response == Some(token);
      assert u in all;
    }
  }

  lemma {:induction false} RunsAreSound(uses: seq<(Use, real)>)
    ensures Sound(TokensAfter(uses), uses)
  {
    if uses != [] {
      var before, last := uses[..|uses| - 1], uses[|uses| - 1];
      RunsAreSound(before);
      UsedIsSound(TokensAfter(before), before, last.0, last.1);
      assert uses == before + [last];
    }
  }

  /** After any run a webhook is checked against at most two distinct tokens, each issued by the
      provider and at most 900 seconds past its expiry; the current one, while that recent, is always
      among them. */
  lemma WebhookTokensAreRecent(uses: seq<(Use, real)>, now: real)
    ensures var t := TokensAfter(uses);
            var tokens := WebhookTokens(t, now).0;
            && |tokens| <= 2 && (|tokens| == 2 ==> tokens[0] != tokens[1])
            && (forall x :: x in tokens ==>
                  exists token :: Issued(uses, token) && token.text == x
                      && now <= (token.expiresAt + OVERLAP_SECONDS) as real)
            && (t.current.Some? && now <= t.current.value.expiresAt as real + 900.0 ==> t.current.value.text in tokens)
  {
    RunsAreSound(uses);
    var t := TokensAfter(uses);
    var tokens := WebhookTokens(t, now).0;
    forall x | x in tokens
      ensures exists token :: Issued(uses, token) && token.text == x
                && now <= (token.expiresAt + OVERLAP_SECONDS) as real
    {
      var token := if CurrentVerifies(t, now) && x == t.current.value.text then t.current.value else t.previous.value;
      assert Issued(uses, token) && token.text == x;
    }
  }

  /** One refresh serves every caller whose token was rejected.  Once the first of them has replaced
      it, then whatever uses follow while the replacement is unexpired, by callers rejected with any
      other token, the cache keeps the replacement: no later refresh is made, whatever it would have
      brought. */
  lemma {:induction false} OneRefreshPerRejection(t: Tokens, used: Token, first: Token, now: real,
                                                  uses: seq<(Use, real)>)
    requires t.current == Some(used) && Usable(Some(first), now) && first.text != used.text
    requires forall u :: u in uses ==> now <= u.1 < first.expiresAt as real
    requires forall u :: u in uses && u.0.Rejected? ==> u.0.used.text != first.text
    ensures AfterUses(Used(t, Rejected(used, Some(first)), now), uses).current == Some(first)
  {
    if uses != [] {
      assert uses[|uses| - 1] in uses;
      assert forall u :: u in uses[..|uses| - 1] ==> u in uses;
      OneRefreshPerRejection(t, used, first, now, uses[..|uses| - 1]);
    }
  }

  /** What a rotation from `replaced` to a token of text `text` at a time leaves, until the next one. */
  ghost predicate Rotated(t: Tokens, replaced: Token, text: string, now: real, later: real) {
    && t.current.Some? && t.current.value.text == text && t.current.value.expiresAt as real > now
    && if t.previous.Some? then
         && t.previous == Some(replaced)
         && t.previousUntil == MinReal((replaced.expiresAt + OVERLAP_SECONDS) as real, now + OVERLAP_SECONDS as real)
       else later > replaced.expiresAt as real + 900.0 || later > now + 900.0
  }

  lemma {:induction false} StaysRotated(t: Tokens, response: Token, now: real, uses: seq<(Use, real)>, later: real)
    requires t.current.Some? && Usable(Some(response), now) && t.current.value.text != response.text && now <= later
    requires forall u :: u in uses ==> now <= u.1 <= later
    requires forall u :: u in uses && !u.0.Webhook? && Usable(u.0.response, u.1) ==>
               u.0.response.value.text == response.text
    ensures Rotated(AfterUses(Refreshed(t, Some(response), now), uses), t.current.value, response.text, now, later)
  {
    if uses == [] {
      assert now < (now.Floor + 1) as real;
    } else {
      var before, last := uses[..|uses| - 1], uses[|uses| - 1];
      assert last in uses && forall u :: u in before ==> u in uses;
      StaysRotated(t, response, now, before, later);
      assert last.1 < (last.1.Floor + 1) as real;
    }
  }

  /** A rotation cuts off no webhook signed just before it, and keeps no replaced token for long:
      whatever uses follow, until the next rotation the replaced token verifies exactly for 900
      seconds, or to 900 seconds past its expiry if that is sooner; its replacement does too. */
  lemma RotationOverlaps(t: Tokens, response: Token, now: real, uses: seq<(Use, real)>, later: real)
    requires t.current.Some? && Usable(Some(response), now) && t.current.value.text != response.text && now <= later
    requires forall u :: u in uses ==> now <= u.1 <= later
    requires forall u :: u in uses && !u.0.Webhook? && Usable(u.0.response, u.1) ==>
               u.0.response.value.text == response.text
    ensures var tokens := WebhookTokens(AfterUses(Refreshed(t, Some(response), now), uses), later).0;
            && (t.current.value.text in tokens <==>
                later <= now + 900.0 && later <= t.current.value.expiresAt as real + 900.0)
            && (later <= now + 900.0 ==> response.text in tokens)
  {
    StaysRotated(t, response, now, uses, later);
  }
}
