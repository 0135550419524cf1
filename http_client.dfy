/** The HTTP transport: the request loop shared by the HTTP clients, which
    tries the servers in turn, and the configuration client built on it,
    which long-polls every subscribed configuration. */
module HttpClients {
  import opened Wrappers
  import opened Errors
  import opened Text
  import opened Descriptors
  import opened ServerUris
  import opened AddressPools
  import opened Scaling
  import opened Subscriptions
  import opened AccessTokens
  import opened HttpRequests

  /** The query parameter that carries the access token. */
  const ACCESS_TOKEN: string := "accessToken"

  /** How one HTTP exchange ends: an exception before any response, or a
      status code with the body. */
  datatype HttpReply = Threw | Status(code: int, body: string)

  /** `PrepareRequest` on the request URI's query, written as
      `UriBuilder.Query` shows it (empty, or starting with '?'). */
  function PrepareQuery(query: string, token: string): string {
    if IsBlank(token) then query
    else query + (if query == "" then "?" else "&") + ACCESS_TOKEN + "=" + token
  }

  /** The parameters of a query. */
  function QueryParameters(query: string): seq<string> {
    if query == "" then [] else SplitOn(query[1..], '&')
  }

  /** A blank token leaves the query alone; any other token becomes exactly
      one more parameter, the last, after the request's own. */
  lemma PreparedQueryAddsToken(query: string, token: string)
    requires query == "" || query[0] == '?'
    requires '&' !in token
    ensures IsBlank(token) ==> PrepareQuery(query, token) == query
    ensures !IsBlank(token) ==> QueryParameters(PrepareQuery(query, token)) == QueryParameters(query) + [ACCESS_TOKEN + "=" + token]
  {
    var p := ACCESS_TOKEN + "=" + token;
    assert '&' !in p by {
      assert forall i :: 0 <= i < |p| ==> p[i] == (if i < |ACCESS_TOKEN| + 1 then (ACCESS_TOKEN + "=")[i] else token[i - |ACCESS_TOKEN| - 1]);
    }
    if !IsBlank(token) {
      var r := PrepareQuery(query, token);
      SplitOnField(p, '&');
      if query == "" {
        assert r == "?" + p;
        assert r[1..] == p;
      } else {
        assert r == query + "&" + p;
        assert r[1..] == query[1..] + ['&'] + p;
        SplitOnConcat(query[1..], p, '&');
      }
    }
  }

  /** Everything one request needs from outside the client: the query the
      request message carries, the token the token service hands out at the
      `i`-th attempt (an error when it throws), and how the `i`-th exchange,
      sent to a server with a prepared query, ends. */
  datatype Exchange = Exchange(query: string, accessToken: nat -> Outcome<string>,
                               reply: (nat, ServerUri, string) -> HttpReply)
  {
    /** The `i`-th attempt against `server`: without a token no request is
        sent and the attempt counts as thrown. */
    function AnswerAt(i: nat, server: ServerUri): HttpReply {
      if accessToken(i).Failure? then Threw
      else reply(i, server, PrepareQuery(query, accessToken(i).value))
    }
  }

  /** The answer of the `i`-th attempt when the pool stood at `start`
      before the first. */
  function AttemptAnswer(addresses: seq<ServerUri>, start: nat, i: nat, e: Exchange): HttpReply
    requires start < |addresses|
  {
    e.AnswerAt(i, addresses[Advance(start, |addresses|, i)])
  }

  predicate IsOk(answer: HttpReply) {
    answer.Status? && answer.code == 200
  }

  /** `RequestAsync` as written: the 403 and 404 exceptions are raised inside
      the `try` whose `catch` retries, so only a 200 ends the loop early. */
  function RequestFromAsWritten(addresses: seq<ServerUri>, start: nat, i: nat, e: Exchange): (r: Outcome<string>)
    requires start < |addresses|
    ensures r.Success? ==>
              exists j :: i <= j < Attempts(|addresses|) && IsOk(AttemptAnswer(addresses, start, j, e))
                          && r.value == AttemptAnswer(addresses, start, j, e).body
                          && forall k :: i <= k < j ==> !IsOk(AttemptAnswer(addresses, start, k, e))
    decreases Attempts(|addresses|) - i
  {
    if i >= Attempts(|addresses|) then Failure(Nacos(AllServersTried))
    else
      var answer := AttemptAnswer(addresses, start, i, e);
      if IsOk(answer) then Success(answer.body)
      else RequestFromAsWritten(addresses, start, i + 1, e)
  }

  /** As written, a request fails only through "all servers tried": the
      forbidden and not-found errors never reach the caller. */
  lemma {:induction false} RequestAsWrittenErrors(addresses: seq<ServerUri>, start: nat, i: nat, e: Exchange)
    requires start < |addresses|
    ensures RequestFromAsWritten(addresses, start, i, e).Failure? ==> RequestFromAsWritten(addresses, start, i, e).error == Nacos(AllServersTried)
    decreases Attempts(|addresses|) - i
  {
    if i < Attempts(|addresses|) {
      RequestAsWrittenErrors(addresses, start, i + 1, e);
    }
  }

  /** As written, a request that gets no 200 fails after every attempt. */
  lemma {:induction false} RequestAsWrittenWithoutOk(addresses: seq<ServerUri>, start: nat, i: nat, e: Exchange)
    requires start < |addresses|
    requires forall j :: i <= j < Attempts(|addresses|) ==> !IsOk(AttemptAnswer(addresses, start, j, e))
    ensures RequestFromAsWritten(addresses, start, i, e) == Failure(Nacos(AllServersTried))
    decreases Attempts(|addresses|) - i
  {
    if i < Attempts(|addresses|) {
      RequestAsWrittenWithoutOk(addresses, start, i + 1, e);
    }
  }

  /** How one answer ends the corrected loop; `None` moves on to the next
      server. */
  function Settle(answer: HttpReply): Option<Outcome<string>> {
    if answer.Threw? then None
    else if answer.code == 200 then Some(Success(answer.body))
    else if answer.code == 403 then Some(Failure(Forbidden))
    else if answer.code == 404 then Some(Failure(HttpRequestNotFound))
    else None
  }

  /** `RequestAsync` corrected: 200 returns the body, 403 and 404 end the
      request with their own errors, anything else tries the next server. */
  function RequestFrom(addresses: seq<ServerUri>, start: nat, i: nat, e: Exchange): Outcome<string>
    requires start < |addresses|
    decreases Attempts(|addresses|) - i
  {
    if i >= Attempts(|addresses|) then Failure(Nacos(AllServersTried))
    else
      var s := Settle(AttemptAnswer(addresses, start, i, e));
      if s.Some? then s.value else RequestFrom(addresses, start, i + 1, e)
  }

  /** The number of failed attempts, each followed by a move to the next
      server. */
  function RequestMoves(addresses: seq<ServerUri>, start: nat, i: nat, e: Exchange): nat
    requires start < |addresses|
    decreases Attempts(|addresses|) - i
  {
    if i >= Attempts(|addresses|) then i
    else if Settle(AttemptAnswer(addresses, start, i, e)).Some? then i
    else RequestMoves(addresses, start, i + 1, e)
  }

  /** The first attempt that settles decides the request, after as many
      moves as attempts before it. */
  lemma {:induction false} RequestDecidedByFirstSettled(addresses: seq<ServerUri>, start: nat, i: nat, k: nat, e: Exchange)
    requires start < |addresses| && i <= k < Attempts(|addresses|)
    requires forall j :: i <= j < k ==> Settle(AttemptAnswer(addresses, start, j, e)).None?
    requires Settle(AttemptAnswer(addresses, start, k, e)).Some?
    ensures RequestFrom(addresses, start, i, e) == Settle(AttemptAnswer(addresses, start, k, e)).value
    ensures RequestMoves(addresses, start, i, e) == k
    decreases k - i
  {
    if i < k {
      RequestDecidedByFirstSettled(addresses, start, i + 1, k, e);
    }
  }

  /** When no attempt settles, every server is tried, at least three times
      in all, and the request fails. */
  lemma {:induction false} RequestFailsWhenNothingSettles(addresses: seq<ServerUri>, start: nat, i: nat, e: Exchange)
    requires start < |addresses| && i <= Attempts(|addresses|)
    requires forall j :: i <= j < Attempts(|addresses|) ==> Settle(AttemptAnswer(addresses, start, j, e)).None?
    ensures RequestFrom(addresses, start, i, e) == Failure(Nacos(AllServersTried))
    ensures RequestMoves(addresses, start, i, e) == Attempts(|addresses|) >= |addresses|
    decreases Attempts(|addresses|) - i
  {
    if i < Attempts(|addresses|) {
      RequestFailsWhenNothingSettles(addresses, start, i + 1, e);
    }
  }

  /** The corrected request fails only as forbidden, not found, or after
      trying every server. */
  lemma {:induction false} RequestErrors(addresses: seq<ServerUri>, start: nat, i: nat, e: Exchange)
    requires start < |addresses|
    ensures var r := RequestFrom(addresses, start, i, e);
            r.Failure? ==> r.error in {Forbidden, HttpRequestNotFound, Nacos(AllServersTried)}
    decreases Attempts(|addresses|) - i
  {
    if i < Attempts(|addresses|) {
      RequestErrors(addresses, start, i + 1, e);
    }
  }

  /** The correction changes nothing while no server answers 403 or 404. */
  lemma {:induction false} CorrectionOnlyAffects403And404(addresses: seq<ServerUri>, start: nat, i: nat, e: Exchange)
    requires start < |addresses|
    requires forall j :: i <= j < Attempts(|addresses|) ==> AttemptAnswer(addresses, start, j, e).Threw? || AttemptAnswer(addresses, start, j, e).code !in {403, 404}
    ensures RequestFrom(addresses, start, i, e) == RequestFromAsWritten(addresses, start, i, e)
    decreases Attempts(|addresses|) - i
  {
    if i < Attempts(|addresses|) {
      CorrectionOnlyAffects403And404(addresses, start, i + 1, e);
    }
  }

  /** Every server answering 404: as written the request ends with the
      generic error after all attempts; corrected, the first answer ends it
      as not found. */
  lemma EveryServerNotFound(addresses: seq<ServerUri>, start: nat)
    requires start < |addresses|
    ensures var e := Exchange("", (i: nat) => Success(""), (i: nat, s: ServerUri, q: string) => Status(404, ""));
            && RequestFromAsWritten(addresses, start, 0, e) == Failure(Nacos(AllServersTried))
            && RequestFrom(addresses, start, 0, e) == Failure(HttpRequestNotFound)
  {
    var e := Exchange("", (i: nat) => Success(""), (i: nat, s: ServerUri, q: string) => Status(404, ""));
    RequestAsWrittenWithoutOk(addresses, start, 0, e);
  }

  /** `InternalGetConfigurationAsync` on the request's outcome: the content
      and its MD5 go into a copy of the descriptor; not found becomes
      configuration not found. */
  function ConfigurationFrom(d: Descriptor, request: Outcome<string>, md5: Option<string> -> string): Outcome<Descriptor>
    requires d.Valid()
  {
    if request.Success? then Success(WithContentAndHash(d, Some(request.value), Some(md5(Some(request.value)))))
    else if request.error == HttpRequestNotFound then Failure(ConfigurationNotFound)
    else Failure(request.error)
  }

  /** As written, fetching a configuration never reports it missing: the
      `ConfigurationNotFoundException` mapping is dead code. */
  lemma ConfigurationNeverNotFoundAsWritten(d: Descriptor, addresses: seq<ServerUri>, start: nat, e: Exchange, md5: Option<string> -> string)
    requires d.Valid() && start < |addresses|
    ensures ConfigurationFrom(d, RequestFromAsWritten(addresses, start, 0, e), md5) != Failure(ConfigurationNotFound)
  {
    RequestAsWrittenErrors(addresses, start, 0, e);
  }

  /** Corrected, a configuration is reported missing exactly when the
      request ends not found; a fetched one keeps its identity and carries
      the body with its MD5. */
  lemma ConfigurationFetchOutcome(d: Descriptor, addresses: seq<ServerUri>, start: nat, e: Exchange, md5: Option<string> -> string)
    requires d.Valid() && start < |addresses|
    ensures var request := RequestFrom(addresses, start, 0, e);
            var r := ConfigurationFrom(d, request, md5);
            && (r == Failure(ConfigurationNotFound) <==> request == Failure(HttpRequestNotFound))
            && (r.Success? <==> request.Success?)
            && (r.Success? ==> r.value.Identity() == d.Identity() && r.value.content == Some(request.value)
                               && r.value.hash == Some(md5(Some(request.value))))
  {
    RequestErrors(addresses, start, 0, e);
  }

  /** The query of `QueryConfigurationRequest`, prefixed by `MakeUri`. */
  function ConfigurationQuery(d: Descriptor): string {
    MakeQuery(Some("tenant=" + d.namespace + "&dataId=" + d.dataId + "&group=" + d.group)).value
  }

  /** The polling token sources, one per subscribed configuration key; the
      flag says whether the source has been cancelled. */
  type TokenSources = map<int, bool>

  /** The token-source part of `SubscribeConfigurationChangeAsync`: a
      polling loop (with a fresh source) starts only for a key that has no
      source yet. */
  function SubscribeSources(sources: TokenSources, key: int): (TokenSources, bool) {
    if key in sources then (sources, false) else (sources[key := false], true)
  }

  /** The token-source part of `UnSubscribeConfigurationChange` as written:
      when the last callback went, the key's source is cancelled but stays
      registered. */
  function UnsubscribeSourcesAsWritten(sources: TokenSources, key: int, removedLast: bool): (r: TokenSources)
    ensures r.Keys == sources.Keys
    ensures forall k :: k in r ==> r[k] == (sources[k] || (removedLast && k == key))
  {
    if removedLast && key in sources then sources[key := true] else sources
  }

  /** Corrected: the cancelled source is also forgotten. */
  function UnsubscribeSources(sources: TokenSources, key: int, removedLast: bool): TokenSources {
    if removedLast && key in sources then sources - {key} else sources
  }

  /** As written, subscribing again after the last callback was removed
      registers the callback but starts no polling loop, and the only
      source of the key is the cancelled one: no change is ever seen. */
  lemma ResubscribeAsWritten(m: map<int, Subscription>, sources: TokenSources, key: int, d: Descriptor, cb: Callback)
    requires WellFormed(m) && key !in m && key !in sources
    ensures var (m1, added) := AddSpec(m, key, d, cb);
            var (s1, polls1) := SubscribeSources(sources, key);
            var (m2, removedLast) := RemoveSpec(m1, key, cb);
            var s2 := UnsubscribeSourcesAsWritten(s1, key, removedLast);
            var (m3, added3) := AddSpec(m2, key, d, cb);
            var (s3, polls3) := SubscribeSources(s2, key);
            && added && polls1 && removedLast && m2 == m
            && added3 && key in m3 && !polls3 && s3[key]
  {
    RemoveUndoesAdd(m, key, d, cb);
  }

  /** Corrected, the second subscription starts a new polling loop with a
      live source, and every registered source is live. */
  lemma ResubscribeCorrected(m: map<int, Subscription>, sources: TokenSources, key: int, d: Descriptor, cb: Callback)
    requires WellFormed(m) && key !in m && key !in sources
    ensures var (m1, added) := AddSpec(m, key, d, cb);
            var (s1, polls1) := SubscribeSources(sources, key);
            var (m2, removedLast) := RemoveSpec(m1, key, cb);
            var s2 := UnsubscribeSources(s1, key, removedLast);
            var (m3, added3) := AddSpec(m2, key, d, cb);
            var (s3, polls3) := SubscribeSources(s2, key);
            && added && polls1 && removedLast && m2 == m
            && added3 && key in m3 && polls3 && !s3[key] && s2 == sources
  {
    RemoveUndoesAdd(m, key, d, cb);
  }

  /** The corrected bookkeeping never keeps a cancelled source. */
  lemma CorrectedSourcesStayLive(sources: TokenSources, key: int, removedLast: bool)
    requires forall k :: k in sources ==> !sources[k]
    ensures var s := SubscribeSources(sources, key).0; forall k :: k in s ==> !s[k]
    ensures var s := UnsubscribeSources(sources, key, removedLast); forall k :: k in s ==> !s[k]
  {
  }

  /** What one round of the polling loop ends in: leave the loop, back off
      (the scaler grows and the loop waits that long), or carry on at once
      with a descriptor after notifying callbacks with `newDescriptor`. */
  datatype PollStep =
    | Exit
    | Backoff
    | Next(descriptor: Descriptor, notified: seq<Callback>, newDescriptor: Descriptor)

  /** The callbacks registered for `key`, or nothing for an untracked key. */
  function Tracked(m: map<int, Subscription>, key: int): Option<seq<Callback>> {
    if key in m then Some(m[key].callbacks) else None
  }

  /** A caught exception: not found always backs off; any other leaves the
      loop once the poll is cancelled, else backs off. */
  function AfterError(error: Error, cancelled: bool): PollStep {
    if error == HttpRequestNotFound then Backoff
    else if cancelled then Exit
    else Backoff
  }

  /** One round of `PollingListeningConfigurationAsync`, from the listening
      request's outcome, the registry's callbacks for the configuration, the
      re-fetch's outcome and whether the poll has been cancelled by the time
      an error is caught. */
  function PollSpec(d: Descriptor, tracked: Option<seq<Callback>>, response: Outcome<string>,
                    fetched: Outcome<Descriptor>, cancelled: bool, md5: Option<string> -> string): (r: PollStep)
    requires d.Valid()
    ensures r.Next? ==> r.descriptor.Valid() && r.descriptor.Identity() == d.Identity()
  {
    if response.Failure? then AfterError(response.error, cancelled)
    else if IsBlank(response.value) then Next(d, [], d)
    else if tracked.None? then Exit
    else if tracked.value == [] then Backoff
    else if fetched.Failure? then AfterError(fetched.error, cancelled)
    else
      var nd := fetched.value;
      var notified := if IsNullOrWhiteSpace(d.hash) then [] else tracked.value;
      Next(WithContentAndHash(d, nd.content, Some(nd.hash.GetOr(md5(nd.content)))), notified, nd)
  }

  /** The decision rules of one polling round. */
  lemma PollRules(d: Descriptor, tracked: Option<seq<Callback>>, response: Outcome<string>,
                  fetched: Outcome<Descriptor>, cancelled: bool, md5: Option<string> -> string)
    requires d.Valid()
    ensures var r := PollSpec(d, tracked, response, fetched, cancelled, md5);
            // a blank response changes nothing, notifies nobody and resets the scaler
            && (response.Success? && IsBlank(response.value) ==> r == Next(d, [], d))
            // a change for a configuration no longer subscribed ends the loop
            && (response.Success? && !IsBlank(response.value) && tracked.None? ==> r.Exit?)
            // with an empty prior hash the change is taken in silently
            && (r.Next? && IsNullOrWhiteSpace(d.hash) ==> r.notified == [])
            // otherwise every registered callback hears of it, with the fetched descriptor
            && (response.Success? && !IsBlank(response.value) && tracked.Some? && tracked.value != []
                && fetched.Success? && !IsNullOrWhiteSpace(d.hash)
                ==> r.Next? && r.notified == tracked.value && r.newDescriptor == fetched.value)
            // after a change the loop goes on with the fetched content and hash
            && (response.Success? && !IsBlank(response.value) && r.Next? ==>
                  fetched.Success? && r.descriptor.content == fetched.value.content
                  && r.descriptor.hash == Some(fetched.value.hash.GetOr(md5(fetched.value.content))))
            // errors back off, except that a cancelled poll leaves on any but not found
            && (response.Failure? ==> (r.Exit? <==> cancelled && response.error != HttpRequestNotFound))
            && (response.Failure? ==> (r.Backoff? <==> !cancelled || response.error == HttpRequestNotFound))
  {
  }

  /** What the environment supplies to the `i`-th polling round: the
      listening request's and the re-fetch's outcomes, whether the poll is
      cancelled when the round would start, and whether it is cancelled by
      the time an error is caught. */
  datatype PollInputs = PollInputs(responses: nat -> Outcome<string>, fetches: nat -> Outcome<Descriptor>,
                                   cancelledBefore: nat -> bool, cancelledDuring: nat -> bool)

  /** The record of a polling run: the loop's last descriptor, every
      callback invocation in order, every back-off wait in order, and whether
      the loop left by itself. */
  datatype PollTrace = PollTrace(descriptor: Descriptor, notifications: seq<Notification>, delays: seq<int>, exited: bool)

  /** A trace preceded by earlier notifications and waits. */
  function After(notifications: seq<Notification>, delays: seq<int>, t: PollTrace): PollTrace {
    t.(notifications := notifications + t.notifications, delays := delays + t.delays)
  }

  /** The polling loop from round `i` on, with the scaler at `value`; the
      scaler is `Scaler(0, 10, 60)`. At most `rounds` rounds are modelled. */
  function PollRun(d: Descriptor, value: int, i: nat, rounds: nat, tracked: Option<seq<Callback>>,
                   io: PollInputs, md5: Option<string> -> string): PollTrace
    requires d.Valid()
    decreases rounds - i
  {
    if i >= rounds || io.cancelledBefore(i) then PollTrace(d, [], [], false)
    else
      match PollSpec(d, tracked, io.responses(i), io.fetches(i), io.cancelledDuring(i), md5)
      case Exit => PollTrace(d, [], [], true)
      case Backoff =>
        var v := Increased(value, 10, Some(60));
        After([], [v], PollRun(d, v, i + 1, rounds, tracked, io, md5))
      case Next(next, notified, newDescriptor) =>
        After(Notifications(notified, newDescriptor), [], PollRun(next, 0, i + 1, rounds, tracked, io, md5))
  }

  /** One round of `PollRun`, unfolded. */
  lemma PollRunUnfold(d: Descriptor, value: int, i: nat, rounds: nat, tracked: Option<seq<Callback>>,
                      io: PollInputs, md5: Option<string> -> string)
    requires d.Valid() && i < rounds && !io.cancelledBefore(i)
    ensures var s := PollSpec(d, tracked, io.responses(i), io.fetches(i), io.cancelledDuring(i), md5);
            var t := PollRun(d, value, i, rounds, tracked, io, md5);
            && (s.Exit? ==> t == PollTrace(d, [], [], true))
            && (s.Backoff? ==> t == After([], [Increased(value, 10, Some(60))], PollRun(d, Increased(value, 10, Some(60)), i + 1, rounds, tracked, io, md5)))
            && (s.Next? ==> t == After(Notifications(s.notified, s.newDescriptor), [], PollRun(s.descriptor, 0, i + 1, rounds, tracked, io, md5)))
  {
  }

  lemma AfterAfter(n1: seq<Notification>, d1: seq<int>, n2: seq<Notification>, d2: seq<int>, t: PollTrace)
    ensures After(n1, d1, After(n2, d2, t)) == After(n1 + n2, d1 + d2, t)
  {
    assert n1 + (n2 + t.notifications) == (n1 + n2) + t.notifications;
    assert d1 + (d2 + t.delays) == (d1 + d2) + t.delays;
  }

  /** The loop's descriptor, notifications and waits after a round that
      did not leave the loop, with the scaler then at `value`. */
  function NextDescriptor(d: Descriptor, step: PollStep): Descriptor {
    if step.Next? then step.descriptor else d
  }

  function NextNotifications(notifications: seq<Notification>, step: PollStep): seq<Notification> {
    if step.Next? then notifications + Notifications(step.notified, step.newDescriptor) else notifications
  }

  function NextDelays(delays: seq<int>, step: PollStep, value: int): seq<int> {
    if step.Backoff? then delays + [value] else delays
  }

  /** One round of the polling loop keeps the loop's account of the run. */
  lemma PollLoopStep(whole: PollTrace, d: Descriptor, value: int, newValue: int, i: nat, rounds: nat, tracked: Option<seq<Callback>>,
                     io: PollInputs, md5: Option<string> -> string, notifications: seq<Notification>, delays: seq<int>, step: PollStep)
    requires d.Valid() && i < rounds && !io.cancelledBefore(i)
    requires whole == After(notifications, delays, PollRun(d, value, i, rounds, tracked, io, md5))
    requires step == PollSpec(d, tracked, io.responses(i), io.fetches(i), io.cancelledDuring(i), md5)
    requires step.Backoff? ==> newValue == Increased(value, 10, Some(60))
    requires step.Next? ==> newValue == 0
    ensures step.Exit? ==> whole == PollTrace(d, notifications, delays, true)
    ensures NextDescriptor(d, step).Valid() && NextDescriptor(d, step).Identity() == d.Identity()
    ensures !step.Exit? ==> whole == After(NextNotifications(notifications, step), NextDelays(delays, step, newValue),
                                           PollRun(NextDescriptor(d, step), newValue, i + 1, rounds, tracked, io, md5))
  {
    if step.Exit? {
      PollRunUnfold(d, value, i, rounds, tracked, io, md5);
      assert After(notifications, delays, PollTrace(d, [], [], true)) == PollTrace(d, notifications, delays, true);
    } else if step.Backoff? {
      PollLoopBackoff(whole, d, value, i, rounds, tracked, io, md5, notifications, delays);
    } else {
      PollLoopNext(whole, d, value, i, rounds, tracked, io, md5, notifications, delays);
    }
  }

  /** A round that backs off adds one wait and goes on with the scaler
      increased. */
  lemma PollLoopBackoff(whole: PollTrace, d: Descriptor, value: int, i: nat, rounds: nat, tracked: Option<seq<Callback>>,
                        io: PollInputs, md5: Option<string> -> string, notifications: seq<Notification>, delays: seq<int>)
    requires d.Valid() && i < rounds && !io.cancelledBefore(i)
    requires whole == After(notifications, delays, PollRun(d, value, i, rounds, tracked, io, md5))
    requires PollSpec(d, tracked, io.responses(i), io.fetches(i), io.cancelledDuring(i), md5).Backoff?
    ensures var v := Increased(value, 10, Some(60));
            whole == After(notifications, delays + [v], PollRun(d, v, i + 1, rounds, tracked, io, md5))
  {
    PollRunUnfold(d, value, i, rounds, tracked, io, md5);
    var v := Increased(value, 10, Some(60));
    AfterAfter(notifications, delays, [], [v], PollRun(d, v, i + 1, rounds, tracked, io, md5));
  }

  /** A round that goes on adds its notifications and resets the scaler. */
  lemma PollLoopNext(whole: PollTrace, d: Descriptor, value: int, i: nat, rounds: nat, tracked: Option<seq<Callback>>,
                     io: PollInputs, md5: Option<string> -> string, notifications: seq<Notification>, delays: seq<int>)
    requires d.Valid() && i < rounds && !io.cancelledBefore(i)
    requires whole == After(notifications, delays, PollRun(d, value, i, rounds, tracked, io, md5))
    requires PollSpec(d, tracked, io.responses(i), io.fetches(i), io.cancelledDuring(i), md5).Next?
    ensures var step := PollSpec(d, tracked, io.responses(i), io.fetches(i), io.cancelledDuring(i), md5);
            whole == After(notifications + Notifications(step.notified, step.newDescriptor), delays,
                           PollRun(step.descriptor, 0, i + 1, rounds, tracked, io, md5))
  {
    PollRunUnfold(d, value, i, rounds, tracked, io, md5);
    var step := PollSpec(d, tracked, io.responses(i), io.fetches(i), io.cancelledDuring(i), md5);
    AfterAfter(notifications, delays, Notifications(step.notified, step.newDescriptor), [], PollRun(step.descriptor, 0, i + 1, rounds, tracked, io, md5));
  }

  /** The loop's account is the run once no round is left. */
  lemma PollLoopEnd(whole: PollTrace, d: Descriptor, value: int, i: nat, rounds: nat, tracked: Option<seq<Callback>>,
                    io: PollInputs, md5: Option<string> -> string, notifications: seq<Notification>, delays: seq<int>)
    requires d.Valid() && (i >= rounds || io.cancelledBefore(i))
    requires whole == After(notifications, delays, PollRun(d, value, i, rounds, tracked, io, md5))
    ensures whole == PollTrace(d, notifications, delays, false)
  {
    assert After(notifications, delays, PollTrace(d, [], [], false)) == PollTrace(d, notifications, delays, false);
  }

  /** A poll that fails round after round waits 10, 20, ... seconds, never
      more than 60, and notifies nobody. */
  lemma {:induction false} PollBackoffDelays(d: Descriptor, value: int, i: nat, rounds: nat, tracked: Option<seq<Callback>>,
                                            io: PollInputs, md5: Option<string> -> string)
    requires d.Valid() && i <= rounds
    requires forall j :: i <= j < rounds ==> !io.cancelledBefore(j)
    requires forall j :: i <= j < rounds ==> PollSpec(d, tracked, io.responses(j), io.fetches(j), io.cancelledDuring(j), md5).Backoff?
    ensures var t := PollRun(d, value, i, rounds, tracked, io, md5);
            && t.descriptor == d && t.notifications == [] && !t.exited && |t.delays| == rounds - i
            && forall j :: 0 <= j < |t.delays| ==> t.delays[j] == AfterAdds(value, 10, Some(60), j + 1)
    decreases rounds - i
  {
    if i < rounds {
      var v := Increased(value, 10, Some(60));
      PollBackoffDelays(d, v, i + 1, rounds, tracked, io, md5);
      var t := PollRun(d, value, i, rounds, tracked, io, md5);
      var rest := PollRun(d, v, i + 1, rounds, tracked, io, md5);
      assert t.delays == [v] + rest.delays;
      forall j | 0 <= j < |t.delays|
        ensures t.delays[j] == AfterAdds(value, 10, Some(60), j + 1)
      {
        if j > 0 {
          assert t.delays[j] == rest.delays[j - 1];
        }
      }
    }
  }

  /** From a fresh scaler the waits are exactly min(10 (j + 1), 60). */
  lemma PollBackoffFromStart(d: Descriptor, rounds: nat, tracked: Option<seq<Callback>>, io: PollInputs, md5: Option<string> -> string)
    requires d.Valid()
    requires forall j :: 0 <= j < rounds ==> !io.cancelledBefore(j)
    requires forall j :: 0 <= j < rounds ==> PollSpec(d, tracked, io.responses(j), io.fetches(j), io.cancelledDuring(j), md5).Backoff?
    ensures var t := PollRun(d, 0, 0, rounds, tracked, io, md5);
            |t.delays| == rounds && forall j :: 0 <= j < rounds ==> t.delays[j] == Min(10 * (j + 1), 60)
  {
    PollBackoffDelays(d, 0, 0, rounds, tracked, io, md5);
    forall n | 1 <= n <= rounds
      ensures AfterAdds(0, 10, Some(60), n) == Min(10 * n, 60)
    {
      PollBackoffSchedule(n);
    }
  }

  /** `NacosConfigurationHttpClient` over a fixed address pool. */
  class ConfigurationHttpClient {
    const pool: FixedPool
    const subscriptions: SubscriptionCollection
    const hashCode: string -> int
    /** `HashUtil.ComputeMD5(...).ToHexString()`, a parameter of the model. */
    const md5: Option<string> -> string
    var tokenSources: TokenSources
    var isInitiated: bool
    var disposed: bool

    ghost predicate Valid()
      reads pool, pool.addresses, subscriptions, subscriptions.Objects()
    {
      pool.Valid() && subscriptions.Valid() && subscriptions.hashCode == hashCode
    }

    /** The registry key of a configuration. */
    function KeyOf(d: Descriptor): int {
      Key(d.Identity(), hashCode)
    }

    constructor (pool: FixedPool, hashCode: string -> int, md5: Option<string> -> string)
      requires pool.Valid()
      ensures Valid() && this.pool == pool && this.hashCode == hashCode && this.md5 == md5
      ensures fresh(subscriptions) && subscriptions.Contents() == map[]
      ensures tokenSources == map[] && !isInitiated && !disposed
    {
      this.pool := pool;
      this.hashCode := hashCode;
      this.md5 := md5;
      subscriptions := new SubscriptionCollection(hashCode);
      tokenSources := map[];
      isInitiated := false;
      disposed := false;
    }

    /** `InitAsync`, with the outcome of the token service's own `InitAsync`
        (the fixed pool's is a no-op). A failure disposes the client. */
    method Init(tokenInit: Outcome<()>) returns (r: Outcome<()>)
      requires Valid()
      modifies this, subscriptions
      ensures Valid()
      ensures old(disposed) ==> r == Failure(ObjectDisposed) && isInitiated == old(isInitiated) && disposed
      ensures !old(disposed) && old(isInitiated) ==> r == Success(()) && isInitiated && !disposed
      ensures !old(disposed) && !old(isInitiated) && tokenInit.Success? ==> r == Success(()) && isInitiated && !disposed
      ensures !old(disposed) && !old(isInitiated) && tokenInit.Failure? ==>
                r == Failure(Nacos(InitFailed)) && !isInitiated && disposed
                && subscriptions.Contents() == map[] && tokenSources == map[]
      ensures r.Success? ==> tokenSources == old(tokenSources) && subscriptions.Contents() == old(subscriptions.Contents())
    {
      if disposed {
        return Failure(ObjectDisposed);
      }
      if isInitiated {
        return Success(());
      }
      if tokenInit.Failure? {
        Dispose();
        return Failure(Nacos(InitFailed));
      }
      isInitiated := true;
      return Success(());
    }

    /** `RequestAsync`: refused once disposed or before initialisation;
        otherwise the corrected request loop over the pool. */
    method Request(e: Exchange) returns (r: Outcome<string>)
      requires Valid()
      modifies pool`index, pool`currentAddress
      ensures Valid()
      ensures disposed ==> r == Failure(ObjectDisposed) && pool.index == old(pool.index)
      ensures !disposed && !isInitiated ==> r == Failure(Nacos(NotInitialized)) && pool.index == old(pool.index)
      ensures !disposed && isInitiated ==>
                && r == RequestFrom(pool.addresses[..], old(pool.index), 0, e)
                && pool.index == Advance(old(pool.index), pool.addresses.Length, RequestMoves(pool.addresses[..], old(pool.index), 0, e))
    {
      if disposed {
        return Failure(ObjectDisposed);
      }
      if !isInitiated {
        return Failure(Nacos(NotInitialized));
      }
      ghost var addresses := pool.addresses[..];
      ghost var start := pool.index;
      var i := 0;
      while i < pool.count || i < 3
        invariant pool.Valid() && addresses == pool.addresses[..]
        invariant 0 <= i <= Attempts(pool.count)
        invariant pool.index == Advance(start, |addresses|, i)
        invariant RequestFrom(addresses, start, 0, e) == RequestFrom(addresses, start, i, e)
        invariant RequestMoves(addresses, start, 0, e) == RequestMoves(addresses, start, i, e)
        decreases Attempts(pool.count) - i
      {
        var server := pool.currentAddress;
        var token := e.accessToken(i);
        var answer := if token.Failure? then Threw else e.reply(i, server, PrepareQuery(e.query, token.value));
        var settled := Settle(answer);
        if settled.Some? {
          return settled.value;
        }
        var _ := pool.MoveNextAddress();
        AdvanceStep(start, |addresses|, i);
        i := i + 1;
      }
      return Failure(Nacos(AllServersTried));
    }

    /** `GetConfigurationAsync` without middlewares: query the
        configuration and wrap the body into a copy of the descriptor. */
    method GetConfiguration(d: Descriptor, accessToken: nat -> Outcome<string>, reply: (nat, ServerUri, string) -> HttpReply)
      returns (r: Outcome<Descriptor>)
      requires Valid() && d.Valid()
      modifies pool`index, pool`currentAddress
      ensures Valid()
      ensures disposed ==> r == Failure(ObjectDisposed)
      ensures !disposed && !isInitiated ==> r == Failure(Nacos(NotInitialized))
      ensures !disposed && isInitiated ==>
                r == ConfigurationFrom(d, RequestFrom(pool.addresses[..], old(pool.index), 0, Exchange(ConfigurationQuery(d), accessToken, reply)), md5)
    {
      var content := Request(Exchange(ConfigurationQuery(d), accessToken, reply));
      if content.Failure? {
        if content.error == HttpRequestNotFound {
          return Failure(ConfigurationNotFound);
        }
        return Failure(content.error);
      }
      return Success(WithContentAndHash(d, Some(content.value), Some(md5(Some(content.value)))));
    }

    /** `SubscribeConfigurationChangeAsync`: register the callback, and
        start a polling loop when the configuration has no token source. */
    method Subscribe(d: Descriptor, cb: Callback) returns (startsPolling: bool)
      requires Valid()
      modifies this`tokenSources, subscriptions, subscriptions.Objects()
      ensures Valid()
      ensures subscriptions.Contents() == AddSpec(old(subscriptions.Contents()), KeyOf(d), d, cb).0
      ensures (tokenSources, startsPolling) == SubscribeSources(old(tokenSources), KeyOf(d))
    {
      var _ := subscriptions.AddSubscribe(d, cb);
      var key := KeyOf(d);
      if key in tokenSources {
        return false;
      }
      tokenSources := tokenSources[key := false];
      return true;
    }

    /** `UnSubscribeConfigurationChange` (corrected): a null callback is
        ignored; removing the last callback cancels the polling source and
        drops it. */
    method UnSubscribe(d: Descriptor, cb: Option<Callback>)
      requires Valid()
      modifies this`tokenSources, subscriptions, subscriptions.Objects()
      ensures Valid()
      ensures cb.None? ==> subscriptions.Contents() == old(subscriptions.Contents()) && tokenSources == old(tokenSources)
      ensures cb.Some? ==>
                var (m, removedLast) := RemoveSpec(old(subscriptions.Contents()), KeyOf(d), cb.value);
                subscriptions.Contents() == m && tokenSources == UnsubscribeSources(old(tokenSources), KeyOf(d), removedLast)
    {
      if cb.None? {
        return;
      }
      ghost var before, sources := subscriptions.Contents(), tokenSources;
      var removedLast := subscriptions.RemoveSubscribe(d, cb.value);
      var key := KeyOf(d);
      assert (subscriptions.Contents(), removedLast) == RemoveSpec(before, key, cb.value);
      if removedLast && key in tokenSources {
        tokenSources := tokenSources - {key};
      }
      assert tokenSources == UnsubscribeSources(sources, key, removedLast);
      assert subscriptions.Contents() == RemoveSpec(before, key, cb.value).0;
    }

    /** One round of the polling loop: `response` is the listening
        request's outcome, `fetched` the re-fetch's; the registry is read
        the way the loop reads it. */
    method PollOnce(d: Descriptor, scaler: Scaler, response: Outcome<string>, fetched: Outcome<Descriptor>, cancelled: bool)
      returns (step: PollStep)
      requires Valid() && d.Valid()
      modifies scaler`value
      ensures step == PollSpec(d, Tracked(subscriptions.Contents(), KeyOf(d)), response, fetched, cancelled, md5)
      ensures step.Backoff? ==> scaler.value == Increased(old(scaler.value), scaler.increaseValue, scaler.maxValue)
      ensures step.Next? ==> scaler.value == scaler.initValue
      ensures step.Exit? ==> scaler.value == old(scaler.value)
    {
      if response.Failure? {
        step := AfterError(response.error, cancelled);
      } else if IsBlank(response.value) {
        step := Next(d, [], d);
      } else {
        var found, state := subscriptions.TryGetSubscribe(d.Identity());
        if !found {
          return Exit;
        }
        assert Tracked(subscriptions.Contents(), KeyOf(d)) == Some(state.notifyCallback);
        if state.notifyCallback == [] {
          step := Backoff;
        } else if fetched.Failure? {
          step := AfterError(fetched.error, cancelled);
        } else {
          var nd := fetched.value;
          var notified := if IsNullOrWhiteSpace(d.hash) then [] else state.notifyCallback;
          step := Next(WithContentAndHash(d, nd.content, Some(nd.hash.GetOr(md5(nd.content)))), notified, nd);
        }
      }
      if step.Backoff? {
        scaler.Add();
      } else if step.Next? {
        scaler.Reset();
      }
    }

    /** One round of the polling loop as the loop runs it: the round
        either leaves the loop, and the loop's account is then the whole
        run, or carries that account over to the next round. */
    method PollRound(ghost whole: PollTrace, d: Descriptor, scaler: Scaler, i: nat, rounds: nat, ghost tracked: Option<seq<Callback>>,
                     io: PollInputs, notifications: seq<Notification>, delays: seq<int>)
      returns (exit: bool, nextDescriptor: Descriptor, nextNotifications: seq<Notification>, nextDelays: seq<int>)
      requires Valid() && d.Valid() && i < rounds && !io.cancelledBefore(i)
      requires tracked == Tracked(subscriptions.Contents(), KeyOf(d))
      requires scaler.increaseValue == 10 && scaler.maxValue == Some(60) && scaler.initValue == 0
      requires whole == After(notifications, delays, PollRun(d, scaler.value, i, rounds, tracked, io, md5))
      modifies scaler`value
      ensures Valid() && tracked == Tracked(subscriptions.Contents(), KeyOf(nextDescriptor))
      ensures scaler.increaseValue == 10 && scaler.maxValue == Some(60) && scaler.initValue == 0
      ensures exit ==> && whole == PollTrace(d, notifications, delays, true)
                       && nextDescriptor == d && nextNotifications == notifications && nextDelays == delays
      ensures !exit ==> && nextDescriptor.Valid() && nextDescriptor.Identity() == d.Identity()
                        && whole == After(nextNotifications, nextDelays, PollRun(nextDescriptor, scaler.value, i + 1, rounds, tracked, io, md5))
    {
      ghost var before := scaler.value;
      var step := PollOnce(d, scaler, io.responses(i), io.fetches(i), io.cancelledDuring(i));
      PollLoopStep(whole, d, before, scaler.value, i, rounds, tracked, io, md5, notifications, delays, step);
      exit := step.Exit?;
      nextDescriptor := NextDescriptor(d, step);
      nextNotifications := NextNotifications(notifications, step);
      nextDelays := NextDelays(delays, step, scaler.value);
    }

    /** `PollingListeningConfigurationAsync`, for at most `rounds` rounds. */
    method Polling(d: Descriptor, rounds: nat, io: PollInputs) returns (t: PollTrace)
      requires Valid() && d.Valid()
      ensures t == PollRun(d, 0, 0, rounds, Tracked(subscriptions.Contents(), KeyOf(d)), io, md5)
    {
      ghost var tracked := Tracked(subscriptions.Contents(), KeyOf(d));
      ghost var whole := PollRun(d, 0, 0, rounds, tracked, io, md5);
      var scaler := new Scaler(0, 10, Some(60));
      var descriptor := d;
      var notifications: seq<Notification> := [];
      var delays: seq<int> := [];
      var i := 0;
      while i < rounds && !io.cancelledBefore(i)
        invariant i <= rounds && descriptor.Valid() && descriptor.Identity() == d.Identity()
        invariant Valid() && tracked == Tracked(subscriptions.Contents(), KeyOf(descriptor))
        invariant scaler.increaseValue == 10 && scaler.maxValue == Some(60) && scaler.initValue == 0
        invariant whole == After(notifications, delays, PollRun(descriptor, scaler.value, i, rounds, tracked, io, md5))
        decreases rounds - i
      {
        var exit;
        exit, descriptor, notifications, delays := PollRound(whole, descriptor, scaler, i, rounds, tracked, io, notifications, delays);
        if exit {
          return PollTrace(descriptor, notifications, delays, true);
        }
        i := i + 1;
      }
      PollLoopEnd(whole, descriptor, scaler.value, i, rounds, tracked, io, md5, notifications, delays);
      return PollTrace(descriptor, notifications, delays, false);
    }

    /** `Dispose`: the registry is emptied and every token source cancelled
        and dropped, on every call. */
    method Dispose()
      requires Valid()
      modifies this, subscriptions
      ensures Valid()
      ensures disposed && subscriptions.Contents() == map[] && tokenSources == map[]
      ensures isInitiated == old(isInitiated)
    {
      subscriptions.Dispose();
      tokenSources := map[];
      disposed := true;
    }
  }
}
