/** The server address pools a client rotates through: a fixed list given
    by the caller, and a list fetched from an address server (ACM). */
module AddressPools {
  import opened Wrappers
  import opened Errors
  import opened Text
  import opened ServerUris
  import opened Scaling

  /** The index `MoveNextAddress` moves to from `index` in a pool of `n`. */
  function NextIndex(index: nat, n: nat): nat {
    if index + 1 >= n then 0 else index + 1
  }

  /** The index after `k` moves. */
  function Advance(index: nat, n: nat, k: nat): (r: nat)
    ensures index < n ==> r < n
    decreases k
  {
    if k == 0 then index else Advance(NextIndex(index, n), n, k - 1)
  }

  /** One more move after `k` moves. */
  lemma {:induction false} AdvanceStep(index: nat, n: nat, k: nat)
    ensures Advance(index, n, k + 1) == NextIndex(Advance(index, n, k), n)
    decreases k
  {
    if k > 0 {
      AdvanceStep(NextIndex(index, n), n, k - 1);
    }
  }

  /** Moving on is a round robin: within one round of `k <= n` moves the
      pool stands `k` addresses further on, wrapping past the last one. */
  lemma {:induction false} AdvanceWithinRound(index: nat, n: nat, k: nat)
    requires index < n && k <= n
    ensures Advance(index, n, k) == if index + k < n then index + k else index + k - n
    decreases k
  {
    if k > 0 {
      AdvanceWithinRound(NextIndex(index, n), n, k - 1);
    }
  }

  /** After `n` moves the pool is back where it started, and every address
      is reached on the way. */
  lemma RoundRobinVisitsAll(index: nat, n: nat, target: nat)
    requires index < n && target < n
    ensures Advance(index, n, n) == index
    ensures var k := if index <= target then target - index else target + n - index;
            k < n && Advance(index, n, k) == target
  {
    AdvanceWithinRound(index, n, n);
    AdvanceWithinRound(index, n, if index <= target then target - index else target + n - index);
  }

  /** The pool built from fixed addresses. It keeps the caller's array. */
  class FixedPool {
    const addresses: array<ServerUri>
    const count: nat
    var index: nat
    var currentAddress: ServerUri

    /** The pool stands at a valid index and knows the address there. */
    ghost predicate Valid()
      reads this, addresses
    {
      count == addresses.Length && 1 <= addresses.Length && index < addresses.Length
      && currentAddress == addresses[index]
    }

    constructor (addresses: array<ServerUri>, random: nat)
      requires 1 <= addresses.Length && random < addresses.Length
      ensures Valid() && this.addresses == addresses
      ensures index == random && currentAddress == addresses[random]
    {
      this.addresses := addresses;
      index := random;
      currentAddress := addresses[random];
      count := addresses.Length;
    }

    /** The public constructor: a missing or empty list is an error, otherwise
        a pool standing at the random index `random`. */
    static method Create(addresses: Option<array<ServerUri>>, random: nat) returns (r: Outcome<FixedPool>)
      requires addresses.Some? && 1 <= addresses.value.Length ==> random < addresses.value.Length
      ensures addresses.None? ==> r == Failure(ArgumentNull("addresses"))
      ensures addresses.Some? && addresses.value.Length < 1 ==> r == Failure(Argument("addresses"))
      ensures r.Success? <==> addresses.Some? && 1 <= addresses.value.Length
      ensures r.Success? ==> fresh(r.value) && r.value.Valid() && r.value.addresses == addresses.value
      ensures r.Success? ==> r.value.index == random && r.value.currentAddress == addresses.value[random]
    {
      if addresses.None? {
        return Failure(ArgumentNull("addresses"));
      }
      if addresses.value.Length < 1 {
        return Failure(Argument("addresses"));
      }
      var pool := new FixedPool(addresses.value, random);
      return Success(pool);
    }

    /** A copy of the addresses, for the caller to keep. */
    method AllAddress() returns (copy: array<ServerUri>)
      ensures fresh(copy) && copy[..] == addresses[..]
    {
      copy := new ServerUri[addresses.Length](i reads addresses requires 0 <= i < addresses.Length => addresses[i]);
    }

    /** The address at the random index `random`. */
    method GetRandomAddress(random: nat) returns (a: ServerUri)
      requires random < addresses.Length
      ensures a == addresses[random]
    {
      a := addresses[random];
    }

    method MoveNextAddress() returns (a: ServerUri)
      requires Valid()
      modifies this`index, this`currentAddress
      ensures Valid()
      ensures addresses.Length == 1 ==> a == addresses[0] && index == old(index) && currentAddress == old(currentAddress)
      ensures addresses.Length > 1 ==> index == NextIndex(old(index), addresses.Length) && a == currentAddress == addresses[index]
    {
      if addresses.Length == 1 {
        return addresses[0];
      }
      index := index + 1;
      if index >= addresses.Length {
        index := 0;
      }
      currentAddress := addresses[index];
      return currentAddress;
    }
  }

  /** One line of the address server's reply as an address: `http://` is put
      in front unless the line starts with `http` (any case), and a line
      without `:` gets the default HTTP port. `uriOf` is `UriBuilder`'s
      parser; `None` means it threw. */
  function ServerListEntry(line: string, uriOf: string -> Option<Uri>): (r: Option<Uri>)
    ensures r.Some? && ':' !in line ==> r.value.port == DEFAULT_HTTP_PORT
    ensures r.Some? && ':' in line ==> r == uriOf(if StartsWithIgnoreCase(line, "http") then line else "http://" + line)
  {
    var text := if StartsWithIgnoreCase(line, "http") then line else "http://" + line;
    match uriOf(text)
    case None => None
    case Some(u) => Some(if ':' in line then u else u.(port := DEFAULT_HTTP_PORT))
  }

  /** Every line of the reply as an address, or `None` when one of them
      cannot be read. */
  function ServerListEntries(lines: seq<string>, uriOf: string -> Option<Uri>): (r: Option<seq<Uri>>)
    ensures r.Some? <==> forall i :: 0 <= i < |lines| ==> ServerListEntry(lines[i], uriOf).Some?
    ensures r.Some? ==> |r.value| == |lines| && forall i :: 0 <= i < |lines| ==> Some(r.value[i]) == ServerListEntry(lines[i], uriOf)
  {
    if lines == [] then Some([])
    else
      match ServerListEntry(lines[0], uriOf)
      case None => None
      case Some(u) =>
        var rest := ServerListEntries(lines[1..], uriOf);
        assert forall i :: 1 <= i < |lines| ==> lines[i] == lines[1..][i - 1];
        if rest.None? then None else Some([u] + rest.value)
  }

  /** What one request to the address server yields: `None` when the request
      or the reading of a line threw. */
  function AttemptResult(content: Option<string>, uriOf: string -> Option<Uri>): Option<seq<Uri>> {
    if content.None? then None
    else ServerListEntries(SplitRemoveEmpty(content.value, {'\r', '\n'}), uriOf)
  }

  /** The fetch from attempt `i` on: at most three attempts; the first that
      yields a list ends the fetch (an empty list is an error, not retried);
      a failure while the caller cancels ends it too. */
  function FetchFrom(i: nat, attempt: nat -> Option<string>, uriOf: string -> Option<Uri>, cancelled: bool): Outcome<seq<Uri>>
    requires i <= 2
    decreases 2 - i
  {
    match AttemptResult(attempt(i), uriOf)
    case Some(uris) => if uris == [] then Failure(Nacos(ServerListUnavailable)) else Success(uris)
    case None =>
      if cancelled then Failure(OperationCanceled)
      else if i == 2 then Failure(Nacos(ServerListUnavailable))
      else FetchFrom(i + 1, attempt, uriOf, cancelled)
  }

  /** The fetch takes the list of the first attempt that does not throw, when
      that is one of the first three. */
  lemma {:induction false} FetchTakesFirstWorkingAttempt(i: nat, k: nat, attempt: nat -> Option<string>, uriOf: string -> Option<Uri>)
    requires i <= k <= 2
    requires forall j :: i <= j < k ==> AttemptResult(attempt(j), uriOf).None?
    requires AttemptResult(attempt(k), uriOf).Some? && AttemptResult(attempt(k), uriOf).value != []
    ensures FetchFrom(i, attempt, uriOf, false) == Success(AttemptResult(attempt(k), uriOf).value)
    decreases k - i
  {
    if i < k {
      FetchTakesFirstWorkingAttempt(i + 1, k, attempt, uriOf);
    }
  }

  /** Three failed attempts, or an empty list, fail the fetch. */
  lemma FetchFailures(attempt: nat -> Option<string>, uriOf: string -> Option<Uri>)
    ensures (forall j :: 0 <= j <= 2 ==> AttemptResult(attempt(j), uriOf).None?) ==>
              FetchFrom(0, attempt, uriOf, false) == Failure(Nacos(ServerListUnavailable))
    ensures AttemptResult(attempt(0), uriOf) == Some([]) ==>
              FetchFrom(0, attempt, uriOf, false) == Failure(Nacos(ServerListUnavailable))
  {
    if forall j :: 0 <= j <= 2 ==> AttemptResult(attempt(j), uriOf).None? {
      assert AttemptResult(attempt(1), uriOf).None?;
      assert AttemptResult(attempt(2), uriOf).None?;
    }
  }

  /** A refresh round that fetches and installs a new list. */
  predicate Refreshed(attempt: nat -> Option<string>, uriOf: string -> Option<Uri>) {
    FetchFrom(0, attempt, uriOf, false).Success? && ParseAll(FetchFrom(0, attempt, uriOf, false).value).Success?
  }

  /** Every server address parsed, or the first parse error. */
  function ParseAll(uris: seq<Uri>): (r: Outcome<seq<ServerUri>>)
    ensures r.Success? <==> forall i :: 0 <= i < |uris| ==> Parse(Some(uris[i])).Success?
    ensures r.Success? ==> |r.value| == |uris| && forall i :: 0 <= i < |uris| ==> Parse(Some(uris[i])) == Success(r.value[i])
  {
    if uris == [] then Success([])
    else
      match Parse(Some(uris[0]))
      case Failure(e) => Failure(e)
      case Success(s) =>
        var rest := ParseAll(uris[1..]);
        assert forall i :: 1 <= i < |uris| ==> uris[i] == uris[1..][i - 1];
        if rest.Failure? then Failure(rest.error) else Success([s] + rest.value)
  }

  /** The pool fed by the address server. Until the first fetch it holds no
      addresses and every read of them is an error. */
  class RemotePool {
    const serverListRequestUri: Uri
    var allAddress: Option<array<ServerUri>>
    var count: Option<nat>
    var currentAddress: Option<ServerUri>
    var index: nat
    var isDisposed: bool

    ghost predicate Valid()
      reads this
    {
      && (allAddress.None? <==> count.None?)
      && (allAddress.None? <==> currentAddress.None?)
      && (allAddress.Some? ==> 1 <= allAddress.value.Length && count.value == allAddress.value.Length && index < allAddress.value.Length)
    }

    constructor (serverListRequestUri: Uri)
      ensures Valid() && this.serverListRequestUri == serverListRequestUri
      ensures allAddress.None? && index == 0 && !isDisposed
    {
      this.serverListRequestUri := serverListRequestUri;
      allAddress := None;
      count := None;
      currentAddress := None;
      index := 0;
      isDisposed := false;
    }

    /** The public constructor, which rejects a missing address. */
    static method Create(serverListRequestUri: Option<Uri>) returns (r: Outcome<RemotePool>)
      ensures serverListRequestUri.None? <==> r == Failure(ArgumentNull("serverListRequestUri"))
      ensures r.Success? ==> fresh(r.value) && r.value.Valid() && r.value.allAddress.None?
      ensures r.Success? ==> r.value.serverListRequestUri == serverListRequestUri.value
    {
      if serverListRequestUri.None? {
        return Failure(ArgumentNull("serverListRequestUri"));
      }
      var pool := new RemotePool(serverListRequestUri.value);
      return Success(pool);
    }

    /** `AllAddress`: the pool's own array, not a copy. */
    method AllAddress() returns (r: Outcome<array<ServerUri>>)
      ensures allAddress.None? <==> r == Failure(Nacos(NotInitialized))
      ensures allAddress.Some? ==> r == Success(allAddress.value)
    {
      if allAddress.None? {
        return Failure(Nacos(NotInitialized));
      }
      return Success(allAddress.value);
    }

    method Count() returns (r: Outcome<nat>)
      ensures count.None? <==> r == Failure(Nacos(NotInitialized))
      ensures count.Some? ==> r == Success(count.value)
    {
      if count.None? {
        return Failure(Nacos(NotInitialized));
      }
      return Success(count.value);
    }

    method CurrentAddress() returns (r: Outcome<ServerUri>)
      ensures currentAddress.None? <==> r == Failure(Nacos(NotInitialized))
      ensures currentAddress.Some? ==> r == Success(currentAddress.value)
    {
      if currentAddress.None? {
        return Failure(Nacos(NotInitialized));
      }
      return Success(currentAddress.value);
    }

    /** The address at `random`, or the only one. */
    method GetRandomAddress(random: nat) returns (r: Outcome<ServerUri>)
      requires Valid()
      requires allAddress.Some? && allAddress.value.Length > 1 ==> random < allAddress.value.Length
      ensures allAddress.None? <==> r == Failure(Nacos(NotInitialized))
      ensures allAddress.Some? && allAddress.value.Length == 1 ==> r == Success(allAddress.value[0])
      ensures allAddress.Some? && allAddress.value.Length > 1 ==> r == Success(allAddress.value[random])
    {
      if allAddress.None? {
        return Failure(Nacos(NotInitialized));
      }
      var all := allAddress.value;
      if all.Length == 1 {
        return Success(all[0]);
      }
      return Success(all[random]);
    }

    method MoveNextAddress() returns (r: Outcome<ServerUri>)
      requires Valid()
      modifies this`index, this`currentAddress
      ensures Valid()
      ensures old(allAddress).None? ==> r == Failure(Nacos(NotInitialized)) && index == old(index) && currentAddress == old(currentAddress)
      ensures allAddress.Some? && allAddress.value.Length == 1 ==>
                r == Success(allAddress.value[0]) && index == old(index) && currentAddress == old(currentAddress)
      ensures allAddress.Some? && allAddress.value.Length > 1 ==>
                index == NextIndex(old(index), allAddress.value.Length)
                && r == Success(allAddress.value[index]) && currentAddress == Some(allAddress.value[index])
    {
      if allAddress.None? {
        return Failure(Nacos(NotInitialized));
      }
      var all := allAddress.value;
      if all.Length == 1 {
        return Success(all[0]);
      }
      index := index + 1;
      if index >= all.Length {
        index := 0;
      }
      currentAddress := Some(all[index]);
      return Success(all[index]);
    }

    /** `GetServerUrisFromAcsEndpointAsync`: the request is retried up to
        three times; `attempt(i)` is the reply of the `i`-th request (`None`
        when it threw) and `cancelled` whether the caller cancels. */
    method FetchServerList(attempt: nat -> Option<string>, uriOf: string -> Option<Uri>, cancelled: bool) returns (r: Outcome<seq<Uri>>)
      ensures r == FetchFrom(0, attempt, uriOf, cancelled)
      ensures r.Success? ==> r.value != []
    {
      var serverUris: Option<seq<Uri>> := None;
      var i := 0;
      while i <= 2
        invariant 0 <= i <= 2
        invariant serverUris.None?
        invariant FetchFrom(0, attempt, uriOf, cancelled) == FetchFrom(i, attempt, uriOf, cancelled)
        decreases 2 - i
      {
        var result := AttemptResult(attempt(i), uriOf);
        if result.Some? {
          serverUris := result;
          break;
        }
        if cancelled {
          return Failure(OperationCanceled);
        }
        if i == 2 {
          break;
        }
        i := i + 1;
      }
      if serverUris.None? || serverUris.value == [] {
        return Failure(Nacos(ServerListUnavailable));
      }
      return Success(serverUris.value);
    }

    /** `SetNewAddresses`: parse the fetched addresses and stand at the random
        index `random` of the new list. */
    method SetNewAddresses(serverUris: Option<seq<Uri>>, random: nat) returns (r: Outcome<()>)
      requires Valid()
      requires serverUris.Some? && serverUris.value != [] ==> random < |serverUris.value|
      modifies this`allAddress, this`count, this`index, this`currentAddress
      ensures Valid()
      ensures serverUris.None? || serverUris.value == [] ==> r == Failure(Nacos(ServerListUnavailable))
      ensures serverUris.Some? && serverUris.value != [] && ParseAll(serverUris.value).Failure? ==> r == Failure(ParseAll(serverUris.value).error)
      ensures r.Failure? ==> allAddress == old(allAddress) && count == old(count) && index == old(index) && currentAddress == old(currentAddress)
      ensures r.Success? <==> serverUris.Some? && serverUris.value != [] && ParseAll(serverUris.value).Success?
      ensures r.Success? ==> allAddress.Some? && fresh(allAddress.value) && allAddress.value[..] == ParseAll(serverUris.value).value
      ensures r.Success? ==> index == random && currentAddress == Some(allAddress.value[random])
    {
      if serverUris.None? || serverUris.value == [] {
        return Failure(Nacos(ServerListUnavailable));
      }
      var parsed := ParseAll(serverUris.value);
      if parsed.Failure? {
        return Failure(parsed.error);
      }
      var list := parsed.value;
      var all := new ServerUri[|list|](i requires 0 <= i < |list| => list[i]);
      allAddress := Some(all);
      count := Some(all.Length);
      index := random;
      currentAddress := Some(all[index]);
      return Success(());
    }

    /** `InitAsync`: fetch the list, then install it. */
    method Init(attempt: nat -> Option<string>, uriOf: string -> Option<Uri>, cancelled: bool, random: nat) returns (r: Outcome<()>)
      requires Valid()
      requires FetchFrom(0, attempt, uriOf, cancelled).Success? ==> random < |FetchFrom(0, attempt, uriOf, cancelled).value|
      modifies this`allAddress, this`count, this`index, this`currentAddress
      ensures Valid()
      ensures FetchFrom(0, attempt, uriOf, cancelled).Failure? ==>
                r == Failure(FetchFrom(0, attempt, uriOf, cancelled).error)
      ensures r.Failure? ==> allAddress == old(allAddress)
      ensures r.Success? <==> FetchFrom(0, attempt, uriOf, cancelled).Success? && ParseAll(FetchFrom(0, attempt, uriOf, cancelled).value).Success?
      ensures r.Success? ==> allAddress.Some? && allAddress.value[..] == ParseAll(FetchFrom(0, attempt, uriOf, cancelled).value).value
    {
      var fetched := FetchServerList(attempt, uriOf, cancelled);
      if fetched.Failure? {
        return Failure(fetched.error);
      }
      r := SetNewAddresses(Some(fetched.value), random);
    }

    /** One round of the background refresh after its 30 second wait: a new
        list resets the back-off, a failure grows it. The result is the extra
        wait in seconds before the next round. */
    method RefreshOnce(scaler: Scaler, attempt: nat -> Option<string>, uriOf: string -> Option<Uri>, random: nat) returns (delay: int)
      requires Valid()
      requires FetchFrom(0, attempt, uriOf, false).Success? ==> random < |FetchFrom(0, attempt, uriOf, false).value|
      modifies this`allAddress, this`count, this`index, this`currentAddress, scaler`value
      ensures Valid()
      ensures Refreshed(attempt, uriOf) ==> scaler.value == scaler.initValue && delay == 0
      ensures Refreshed(attempt, uriOf) ==> allAddress.Some? && allAddress.value[..] == ParseAll(FetchFrom(0, attempt, uriOf, false).value).value
      ensures !Refreshed(attempt, uriOf) ==> scaler.value == Increased(old(scaler.value), scaler.increaseValue, scaler.maxValue)
      ensures !Refreshed(attempt, uriOf) ==> delay == scaler.value && allAddress == old(allAddress)
    {
      var installed := Init(attempt, uriOf, false, random);
      if installed.Success? {
        scaler.Reset();
        delay := 0;
      } else {
        scaler.Add();
        delay := scaler.value;
      }
    }

    method Dispose()
      modifies this`isDisposed
      ensures isDisposed
    {
      if isDisposed {
        return;
      }
      isDisposed := true;
    }
  }
}
