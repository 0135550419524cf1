/** Logging in to the Nacos servers and keeping the access token fresh. */
module AccessTokens {
  import opened Wrappers
  import opened Errors
  import opened ServerUris
  import opened AddressPools
  import opened Scaling

  /** C#'s integer division, which truncates toward zero: the remainder
      `a - q * b` has the sign of `a` and is smaller than `b` in size. */
  function TruncDiv(a: int, b: int): (q: int)
    requires b > 0
    ensures a >= 0 ==> 0 <= a - q * b < b
    ensures a < 0 ==> -b < a - q * b <= 0
  {
    if a >= 0 then a / b
    else
      var n := (-a) / b;
      assert -a == n * b + (-a) % b;
      assert a - (-n) * b == -((-a) % b);
      -n
  }

  /** The server's answer to a login. */
  datatype LoginResponse = LoginResponse(accessToken: string, tokenTtl: int)

  /** A token with the instant (in seconds) from which it counts as expired. */
  datatype AccessTokenWrapper = AccessTokenWrapper(token: string, expire: int)

  /** A wrapper made at `now`: the token expires a tenth of its lifetime
      early. */
  function NewWrapper(token: string, ttl: int, now: int): (w: AccessTokenWrapper)
    ensures w.token == token
    ensures ttl >= 0 ==> now + ttl - ttl / 10 == w.expire
  {
    AccessTokenWrapper(token, now + (ttl - TruncDiv(ttl, 10)))
  }

  /** `Token`: the token while it has not expired, else nothing. */
  function TokenAt(w: AccessTokenWrapper, now: int): Option<string> {
    if w.expire > now then Some(w.token) else None
  }

  /** A token obtained with lifetime `ttl` is handed out for the first nine
      tenths of it (rounded) and not afterwards. */
  lemma TokenLifetime(token: string, ttl: int, issued: int, now: int)
    requires ttl >= 0
    ensures TokenAt(NewWrapper(token, ttl, issued), now) == Some(token) <==> now - issued < ttl - ttl / 10
    ensures TokenAt(NewWrapper(token, ttl, issued), now).None? <==> now - issued >= ttl - ttl / 10
  {
  }

  /** The wrapper a service starts with (`new("", -1)`) never yields a token,
      whatever the clock says after its creation. */
  lemma InitialWrapperHasNoToken(created: int, now: int)
    requires now >= created
    ensures TokenAt(NewWrapper("", -1, created), now) == None
  {
  }

  /** The outcome of one login request. `response` is the deserialized body;
      `None` when it is null or cannot be read. */
  datatype LoginReply =
    | LoginThrew
    | LoginStatus(status: int, response: Option<LoginResponse>)

  predicate IsSuccessStatusCode(status: int) {
    200 <= status <= 299
  }

  /** A reply after which the login moves on to the next server. */
  predicate Retriable(reply: LoginReply) {
    reply.LoginThrew?
    || (IsSuccessStatusCode(reply.status) && reply.response.None?)
    || (!IsSuccessStatusCode(reply.status) && reply.status != 403)
  }

  /** How many logins are tried over `count` servers: each at least once,
      and at least three in all. */
  function Attempts(count: nat): nat {
    if count > 3 then count else 3
  }

  /** The login from attempt `i` on, for a pool over `addresses` standing at
      `start` before the first attempt. Every failed attempt moves the pool
      on; a 403 ends the login at once. */
  function LoginFrom(addresses: seq<ServerUri>, start: nat, i: nat, reply: (nat, ServerUri) -> LoginReply): Outcome<LoginResponse>
    requires start < |addresses|
    decreases Attempts(|addresses|) - i
  {
    if i >= Attempts(|addresses|) then Failure(LoginFail)
    else
      var r := reply(i, addresses[Advance(start, |addresses|, i)]);
      if Retriable(r) then LoginFrom(addresses, start, i + 1, reply)
      else if r.status == 403 then Failure(LoginFail)
      else Success(r.response.value)
  }

  /** The number of attempts the login makes, from attempt `i` on. */
  function LoginMoves(addresses: seq<ServerUri>, start: nat, i: nat, reply: (nat, ServerUri) -> LoginReply): (k: nat)
    requires start < |addresses|
    decreases Attempts(|addresses|) - i
  {
    if i >= Attempts(|addresses|) then i
    else if Retriable(reply(i, addresses[Advance(start, |addresses|, i)])) then LoginMoves(addresses, start, i + 1, reply)
    else i
  }

  /** When every attempt can be retried, the login fails after trying every
      server, and at least three times. */
  lemma {:induction false} LoginFailsWhenAllAttemptsFail(addresses: seq<ServerUri>, start: nat, i: nat, reply: (nat, ServerUri) -> LoginReply)
    requires start < |addresses|
    requires forall j :: i <= j < Attempts(|addresses|) ==> Retriable(reply(j, addresses[Advance(start, |addresses|, j)]))
    ensures LoginFrom(addresses, start, i, reply) == Failure(LoginFail)
    ensures i <= Attempts(|addresses|) ==> LoginMoves(addresses, start, i, reply) == Attempts(|addresses|)
    decreases Attempts(|addresses|) - i
  {
    if i < Attempts(|addresses|) {
      LoginFailsWhenAllAttemptsFail(addresses, start, i + 1, reply);
    }
  }

  /** The first attempt that is not retried decides the login: its response
      when it succeeded, a login failure when it was refused with 403. */
  lemma {:induction false} LoginDecidedByFirstAnswer(addresses: seq<ServerUri>, start: nat, i: nat, k: nat, reply: (nat, ServerUri) -> LoginReply)
    requires start < |addresses| && i <= k < Attempts(|addresses|)
    requires forall j :: i <= j < k ==> Retriable(reply(j, addresses[Advance(start, |addresses|, j)]))
    requires !Retriable(reply(k, addresses[Advance(start, |addresses|, k)]))
    ensures var r := reply(k, addresses[Advance(start, |addresses|, k)]);
            LoginFrom(addresses, start, i, reply) == (if r.status == 403 then Failure(LoginFail) else Success(r.response.value))
    ensures LoginMoves(addresses, start, i, reply) == k
    decreases k - i
  {
    if i < k {
      LoginDecidedByFirstAnswer(addresses, start, i + 1, k, reply);
    }
  }

  /** The delay before the next automatic refresh after `failCount`
      consecutive failures. */
  function RetryDelay(failCount: nat): int {
    if failCount > 12 then 120 else failCount * 10
  }

  /** Ten more seconds per failure, never more than two minutes. */
  lemma RetryDelayCapped(failCount: nat)
    requires failCount >= 1
    ensures RetryDelay(failCount) == Min(10 * failCount, 120)
    ensures 10 <= RetryDelay(failCount) <= 120
  {
  }

  /** The token service over a fixed address pool. */
  class AccessTokenService {
    const pool: FixedPool
    var wrapper: AccessTokenWrapper
    var isInitiated: bool
    var disposed: bool
    var autoRefreshRunning: bool

    ghost predicate Valid()
      reads this, pool, pool.addresses
    {
      pool.Valid()
    }

    constructor (pool: FixedPool, now: int)
      requires pool.Valid()
      ensures Valid() && this.pool == pool
      ensures wrapper == NewWrapper("", -1, now) && !isInitiated && !disposed && !autoRefreshRunning
    {
      this.pool := pool;
      wrapper := NewWrapper("", -1, now);
      isInitiated := false;
      disposed := false;
      autoRefreshRunning := false;
    }

    /** `AccessToken`: the current token, or an error once it expired. */
    method AccessToken(now: int) returns (r: Outcome<string>)
      ensures TokenAt(wrapper, now).Some? ==> r == Success(TokenAt(wrapper, now).value)
      ensures TokenAt(wrapper, now).None? ==> r == Failure(Nacos(NoAccessToken))
    {
      var token := TokenAt(wrapper, now);
      if token.None? {
        return Failure(Nacos(NoAccessToken));
      }
      return Success(token.value);
    }

    /** `LoginAsync`: try the servers in turn; `reply(i, server)` is how the
        `i`-th request, sent to `server`, ends. */
    method Login(reply: (nat, ServerUri) -> LoginReply) returns (r: Outcome<LoginResponse>)
      requires Valid()
      modifies pool`index, pool`currentAddress
      ensures Valid()
      ensures r == LoginFrom(pool.addresses[..], old(pool.index), 0, reply)
      ensures pool.index == Advance(old(pool.index), pool.addresses.Length, LoginMoves(pool.addresses[..], old(pool.index), 0, reply))
    {
      ghost var addresses := pool.addresses[..];
      ghost var start := pool.index;
      var i := 0;
      while i < pool.count || i < 3
        invariant pool.Valid() && addresses == pool.addresses[..]
        invariant 0 <= i <= Attempts(pool.count)
        invariant pool.index == Advance(start, |addresses|, i)
        invariant LoginFrom(addresses, start, 0, reply) == LoginFrom(addresses, start, i, reply)
        invariant LoginMoves(addresses, start, 0, reply) == LoginMoves(addresses, start, i, reply)
        decreases Attempts(pool.count) - i
      {
        var server := pool.currentAddress;
        var answer := reply(i, server);
        if answer.LoginStatus? && IsSuccessStatusCode(answer.status) && answer.response.Some? {
          return Success(answer.response.value);
        }
        if answer.LoginStatus? && !IsSuccessStatusCode(answer.status) && answer.status == 403 {
          return Failure(LoginFail);
        }
        var _ := pool.MoveNextAddress();
        AdvanceStep(start, |addresses|, i);
        i := i + 1;
      }
      return Failure(LoginFail);
    }

    /** `InitAsync`: log in once and start the automatic refresh; later calls
        do nothing. */
    method Init(reply: (nat, ServerUri) -> LoginReply, now: int) returns (r: Outcome<()>)
      requires Valid()
      modifies this`wrapper, this`isInitiated, this`autoRefreshRunning, pool`index, pool`currentAddress
      ensures Valid()
      ensures old(isInitiated) ==> && r == Success(()) && wrapper == old(wrapper) && isInitiated && pool.index == old(pool.index)
                                   && autoRefreshRunning == old(autoRefreshRunning)
      ensures !old(isInitiated) ==> pool.index == Advance(old(pool.index), pool.addresses.Length, LoginMoves(pool.addresses[..], old(pool.index), 0, reply))
      ensures !old(isInitiated) ==> var login := LoginFrom(pool.addresses[..], old(pool.index), 0, reply);
              && (login.Failure? ==> && r == Failure(login.error) && wrapper == old(wrapper) && isInitiated == old(isInitiated)
                                     && autoRefreshRunning == old(autoRefreshRunning))
              && (login.Success? ==> r == Success(()) && isInitiated && autoRefreshRunning
                                     && wrapper == NewWrapper(login.value.accessToken, login.value.tokenTtl, now))
    {
      if isInitiated {
        return Success(());
      }
      var login := Login(reply);
      if login.Failure? {
        return Failure(login.error);
      }
      wrapper := NewWrapper(login.value.accessToken, login.value.tokenTtl, now);
      autoRefreshRunning := true;
      isInitiated := true;
      return Success(());
    }

    /** `RefreshAccessTokenAsync`: log in again and keep the new token. */
    method RefreshAccessToken(reply: (nat, ServerUri) -> LoginReply, now: int) returns (r: Outcome<string>)
      requires Valid()
      modifies this`wrapper, pool`index, pool`currentAddress
      ensures Valid()
      ensures pool.index == Advance(old(pool.index), pool.addresses.Length, LoginMoves(pool.addresses[..], old(pool.index), 0, reply))
      ensures var login := LoginFrom(pool.addresses[..], old(pool.index), 0, reply);
              && (login.Failure? ==> r == Failure(login.error) && wrapper == old(wrapper))
              && (login.Success? ==> r == Success(login.value.accessToken)
                                     && wrapper == NewWrapper(login.value.accessToken, login.value.tokenTtl, now))
    {
      var login := Login(reply);
      if login.Failure? {
        return Failure(login.error);
      }
      wrapper := NewWrapper(login.value.accessToken, login.value.tokenTtl, now);
      return Success(login.value.accessToken);
    }

    /** One try of the automatic refresh: a new token resets the failure
        count, a failure raises it. Returns the new count and, after a
        failure, the seconds to wait before the next try. */
    method AutoRefreshTry(failCount: nat, reply: (nat, ServerUri) -> LoginReply, now: int) returns (newFailCount: nat, retryDelay: int)
      requires Valid()
      modifies this`wrapper, pool`index, pool`currentAddress
      ensures Valid()
      ensures pool.index == Advance(old(pool.index), pool.addresses.Length, LoginMoves(pool.addresses[..], old(pool.index), 0, reply))
      ensures var login := LoginFrom(pool.addresses[..], old(pool.index), 0, reply);
              && (login.Success? ==> newFailCount == 0 && retryDelay == 0
                                     && wrapper == NewWrapper(login.value.accessToken, login.value.tokenTtl, now))
              && (login.Failure? ==> newFailCount == failCount + 1 && retryDelay == RetryDelay(failCount + 1)
                                     && wrapper == old(wrapper))
    {
      var login := Login(reply);
      if login.Success? {
        wrapper := NewWrapper(login.value.accessToken, login.value.tokenTtl, now);
        return 0, 0;
      }
      newFailCount := failCount + 1;
      retryDelay := RetryDelay(newFailCount);
    }

    method Dispose()
      modifies this`disposed, this`autoRefreshRunning
      ensures disposed
      ensures !old(disposed) ==> !autoRefreshRunning
      ensures old(disposed) ==> autoRefreshRunning == old(autoRefreshRunning)
    {
      if !disposed {
        disposed := true;
        autoRefreshRunning := false;
      }
    }
  }
}
